/** The object key of a recording, and the parser that reads it back from the right. */
module ObjectKey {
  import opened Messages

  // ---------- strings ----------

  /** `unicode.IsSpace`. */
  predicate IsSpace(c: char)
  {
    || '\t' <= c <= '\r' || c == ' ' || c == '\U{0085}' || c == '\U{00A0}' || c == '\U{1680}'
    || '\U{2000}' <= c <= '\U{200A}' || c == '\U{2028}' || c == '\U{2029}' || c == '\U{202F}'
    || c == '\U{205F}' || c == '\U{3000}'
  }

  /** The code points of these characters. */
  lemma SpacesAreThese(c: char)
    ensures IsSpace(c) <==>
            c as int in {9, 10, 11, 12, 13, 32, 133, 160, 5760, 8192, 8193, 8194, 8195, 8196, 8197, 8198, 8199, 8200,
                         8201, 8202, 8232, 8233, 8239, 8287, 12288}
  {}

  function TrimLeft(s: string): string
  {
    if s != "" && IsSpace(s[0]) then TrimLeft(s[1..]) else s
  }

  function TrimRight(s: string): string
  {
    if s != "" && IsSpace(s[|s| - 1]) then TrimRight(s[..|s| - 1]) else s
  }

  function TrimSpace(s: string): string { TrimRight(TrimLeft(s)) }

  predicate Blank(s: string) { forall i :: 0 <= i < |s| ==> IsSpace(s[i]) }

  /** Trimming takes off blanks only, and as many as there are at either end. */
  lemma TrimmedOnBothSides(s: string) returns (left: string, right: string)
    ensures s == left + TrimSpace(s) + right && Blank(left) && Blank(right)
    ensures var r := TrimSpace(s); r == "" || (!IsSpace(r[0]) && !IsSpace(r[|r| - 1]))
  {
    left := TrimmedLeft(s);
    right := TrimmedRight(TrimLeft(s));
  }

  lemma {:induction false} TrimmedLeft(s: string) returns (left: string)
    ensures s == left + TrimLeft(s) && Blank(left)
    ensures var r := TrimLeft(s); r == "" || !IsSpace(r[0])
  {
    if s != "" && IsSpace(s[0]) {
      var rest := TrimmedLeft(s[1..]);
      left := [s[0]] + rest;
    } else {
      left := "";
    }
  }

  lemma {:induction false} TrimmedRight(s: string) returns (right: string)
    ensures s == TrimRight(s) + right && Blank(right)
    ensures var r := TrimRight(s); r == "" || !IsSpace(r[|r| - 1])
  {
    if s != "" && IsSpace(s[|s| - 1]) {
      var rest := TrimmedRight(s[..|s| - 1]);
      right := rest + [s[|s| - 1]];
    } else {
      right := "";
    }
  }

  function Underscored(s: string): (r: string)
    ensures |r| == |s|
    ensures forall i :: 0 <= i < |s| ==> r[i] == if s[i] == '/' || s[i] == '\\' then '_' else s[i]
  {
    seq(|s|, i requires 0 <= i < |s| => if s[i] == '/' || s[i] == '\\' then '_' else s[i])
  }

  predicate Has(s: string, c: char) { c in s }

  function Split(s: string): (segments: seq<string>)
    ensures |segments| >= 1
  {
    if s == "" then [""] else
    var rest := Split(s[1..]);
    if s[0] == '/' then [""] + rest else [[s[0]] + rest[0]] + rest[1..]
  }

  function Joined(segments: seq<string>): string
    requires segments != []
  {
    if |segments| == 1 then segments[0] else segments[0] + "/" + Joined(segments[1..])
  }

  lemma {:induction false} SplitFirst(a: string, rest: string)
    requires !Has(a, '/')
    ensures Split(a + "/" + rest) == [a] + Split(rest)
  {
    if a == "" {
      assert a + "/" + rest == "/" + rest && ("/" + rest)[1..] == rest;
    } else {
      var whole := a + "/" + rest;
      assert whole[0] == a[0] && Has(a, a[0]);
      assert whole[1..] == a[1..] + "/" + rest;
      SplitFirst(a[1..], rest);
      assert Split(whole) == [[a[0]] + a[1..]] + Split(rest);
      assert [a[0]] + a[1..] == a;
    }
  }

  lemma {:induction false} SplitWhole(a: string)
    requires !Has(a, '/')
    ensures Split(a) == [a]
  {
    if a != "" {
      assert Has(a, a[0]);
      SplitWhole(a[1..]);
      assert [a[0]] + a[1..] == a;
    }
  }

  lemma {:induction false} JoinedSplit(s: string)
    ensures Joined(Split(s)) == s
  {
    if s != "" {
      JoinedSplit(s[1..]);
      var rest := Split(s[1..]);
      if s[0] == '/' {
        assert ([""] + rest)[1..] == rest;
      } else {
        assert Split(s)[1..] == rest[1..];
      }
    }
  }

  // ---------- path.Join ----------

  /** `path.Clean` on the segments of a path that does not start with a slash. */
  function Cleaned(done: seq<string>, todo: seq<string>): seq<string>
    decreases todo
  {
    if todo == [] then done
    else if todo[0] == "" || todo[0] == "." then Cleaned(done, todo[1..])
    else if todo[0] == ".." && done != [] && done[|done| - 1] != ".." then Cleaned(done[..|done| - 1], todo[1..])
    else Cleaned(done + [todo[0]], todo[1..])
  }

  function Clean(path: string): string
  {
    var segments := Cleaned([], Split(path));
    if segments == [] then "." else Joined(segments)
  }

  // ---------- the key ----------

  function Sanitize(value: string, field: string): Result<string>
  {
    var trimmed := TrimSpace(value);
    if trimmed == "" then Err(field + " is required for record object key") else Ok(Underscored(trimmed))
  }

  /** An instant in UTC down to the second, in years of four digits. */
  datatype Stamp = Stamp(year: nat, month: nat, day: nat, hour: nat, minute: nat, second: nat)
  {
    predicate Valid()
    {
      year < 10000 && month < 100 && day < 100 && hour < 100 && minute < 100 && second < 100
    }
  }

  function Digit(d: nat): char
    requires d < 10
  {
    (48 + d) as char
  }

  function Two(n: nat): (s: string)
    requires n < 100
    ensures |s| == 2
  {
    [Digit(n / 10), Digit(n % 10)]
  }

  /** The layout `20060102T150405Z`. */
  function Format(t: Stamp): (s: string)
    requires t.Valid()
    ensures |s| == 16
  {
    Two(t.year / 100) + Two(t.year % 100) + Two(t.month) + Two(t.day) + "T"
    + Two(t.hour) + Two(t.minute) + Two(t.second) + "Z"
  }

  function Filename(cam: string, recordType: string, t: Stamp): string
    requires t.Valid()
  {
    cam + "_" + recordType + "_" + Format(t) + ".mp4"
  }

  datatype Key = Key(objectKey: string, filename: string)

  /** `buildRecordObjectKey`: all three fields are sanitized, the first blank one is the error. */
  function Build(site: string, group: string, camId: string, recordType: string, t: Stamp): Result<Key>
    requires t.Valid()
  {
    match (Sanitize(site, "site"), Sanitize(group, "group"), Sanitize(camId, "cam_id"))
    case (Err(text), _, _) => Err(text)
    case (_, Err(text), _) => Err(text)
    case (_, _, Err(text)) => Err(text)
    case (Ok(siteSegment), Ok(groupSegment), Ok(cam)) =>
      var filename := Filename(cam, recordType, t);
      Ok(Key(Clean(siteSegment + "/" + groupSegment + "/" + filename), filename))
  }

  lemma SanitizedIsSegment(value: string, field: string)
    ensures Sanitize(value, field).Ok? ==> Sanitize(value, field).value != "" && !Has(Sanitize(value, field).value, '/')
  {}

  /** A field of blanks only is an error that names it; any other loses its outer blanks, and its slashes. */
  lemma SanitizedMeans(value: string, field: string) returns (left: string, right: string)
    ensures Sanitize(value, field).Err? <==> Blank(value)
    ensures Sanitize(value, field).Err? ==>
              Sanitize(value, field).text == field + " is required for record object key"
    ensures Sanitize(value, field).Ok? ==>
              var r := Sanitize(value, field).value;
              && left <= value && Blank(left) && Blank(right)
              && |r| == |value| - |left| - |right| > 0 && value[|left| + |r|..] == right
              && !IsSpace(value[|left|]) && !IsSpace(value[|left| + |r| - 1])
              && forall i :: 0 <= i < |r| ==>
                   r[i] == if value[|left| + i] in "/\\" then '_' else value[|left| + i]
  {
    left, right := TrimmedOnBothSides(value);
    var core := TrimSpace(value);
    assert core != "" ==> value[|left|] == core[0] && value[|left| + |core| - 1] == core[|core| - 1];
    assert forall i :: 0 <= i < |core| ==> value[|left| + i] == core[i];
  }

  /** The key cannot be built exactly when a field is blank, and the error names the first blank one. */
  lemma BlankFieldIsNamed(site: string, group: string, camId: string, recordType: string, t: Stamp)
    requires t.Valid()
    ensures Build(site, group, camId, recordType, t).Err? <==> Blank(site) || Blank(group) || Blank(camId)
    ensures Build(site, group, camId, recordType, t).Err? ==>
              Build(site, group, camId, recordType, t).text ==
              (if Blank(site) then "site" else if Blank(group) then "group" else "cam_id")
              + " is required for record object key"
  {
    var left, right := SanitizedMeans(site, "site");
    left, right := SanitizedMeans(group, "group");
    left, right := SanitizedMeans(camId, "cam_id");
  }

  /** What the documentation promises the key to be. */
  function Promised(site: string, group: string, filename: string): string
  {
    site + "/" + group + "/" + filename
  }

  /** The segments `path.Join` keeps as they are. */
  predicate KeptByJoin(site: string, group: string)
  {
    site != "." && group != "." && (group != ".." || site == "..")
  }

  lemma CleanedThree(site: string, group: string, file: string)
    requires site != "" && group != "" && file !in ["", ".", ".."]
    ensures Cleaned([], [site, group, file]) ==
            if site == "." then (if group == "." then [file] else [group, file])
            else if group == "." then [site, file]
            else if group == ".." && site != ".." then [file]
            else [site, group, file]
  {
    var todo := [site, group, file];
    assert todo[1..] == [group, file] && [group, file][1..] == [file] && [file][1..] == [];
    var first := if site == "." then [] else [site];
    assert [] + [site] == [site];
    assert Cleaned([], todo) == Cleaned(first, [group, file]);
    var second := if group == "." then first
                  else if group == ".." && first != [] && site != ".." then []
                  else first + [group];
    assert Cleaned(first, [group, file]) == Cleaned(second, [file]);
    assert Cleaned(second, [file]) == second + [file];
  }

  /** The key is the promised three segments exactly when neither site nor group is a dot name that Join resolves. */
  lemma KeyIsAsPromised(site: string, group: string, camId: string, recordType: string, t: Stamp)
    requires t.Valid() && !Has(recordType, '/') && Build(site, group, camId, recordType, t).Ok?
    ensures var key := Build(site, group, camId, recordType, t).value;
            var s, g := Sanitize(site, "site").value, Sanitize(group, "group").value;
            (key.objectKey == Promised(s, g, key.filename) <==> KeptByJoin(s, g))
            && key.filename == Filename(Sanitize(camId, "cam_id").value, recordType, t)
  {
    var key := Build(site, group, camId, recordType, t).value;
    var s, g, f := Sanitize(site, "site").value, Sanitize(group, "group").value, key.filename;
    SanitizedIsSegment(site, "site");
    SanitizedIsSegment(group, "group");
    SanitizedIsSegment(camId, "cam_id");
    FilenameIsSegment(Sanitize(camId, "cam_id").value, recordType, t);
    SplitThree(s, g, f);
    CleanedThree(s, g, f);
    JoinedLengths(s, g, f);
  }

  lemma FilenameIsSegment(cam: string, recordType: string, t: Stamp)
    requires t.Valid() && !Has(cam, '/') && !Has(recordType, '/')
    ensures var f := Filename(cam, recordType, t); !Has(f, '/') && |f| > 2
  {
    assert forall d: nat :: d < 10 ==> Digit(d) != '/';
  }

  lemma SplitThree(s: string, g: string, f: string)
    requires !Has(s, '/') && !Has(g, '/') && !Has(f, '/')
    ensures Split(s + "/" + g + "/" + f) == [s, g, f]
  {
    SplitFirst(s, g + "/" + f);
    SplitFirst(g, f);
    SplitWhole(f);
    assert s + "/" + g + "/" + f == s + "/" + (g + "/" + f);
  }

  lemma JoinedLengths(s: string, g: string, f: string)
    ensures Joined([f]) == f && Joined([g, f]) == g + "/" + f && Joined([s, g, f]) == Promised(s, g, f)
  {
    assert [s, g, f][1..] == [g, f] && [g, f][1..] == [f];
    assert s + "/" + (g + "/" + f) == s + "/" + g + "/" + f;
  }

  /** A name with no blank at either end and no slash is its own segment. */
  lemma PlainName(value: string, field: string)
    requires value != "" && !IsSpace(value[0]) && !IsSpace(value[|value| - 1])
    requires !Has(value, '/') && !Has(value, '\\')
    ensures Sanitize(value, field) == Ok(value)
  {
    assert Underscored(value) == value;
  }

  /** Where the promise fails keys of different sites can collide: a group `..` takes the site with it. */
  lemma DotGroupsCollide(t: Stamp)
    requires t.Valid()
    ensures Build("a", "..", "cam", "UI", t).Ok?
    ensures Build("a", "..", "cam", "UI", t) == Build("b", "..", "cam", "UI", t)
  {
    var f := Filename("cam", "UI", t);
    FilenameIsSegment("cam", "UI", t);
    PlainName("a", "site");
    PlainName("b", "site");
    PlainName("..", "group");
    PlainName("cam", "cam_id");
    SplitThree("a", "..", f);
    SplitThree("b", "..", f);
    CleanedThree("a", "..", f);
    CleanedThree("b", "..", f);
  }

  // ---------- the parser ----------

  datatype Parts = Parts(site: string, group: string, cam: string, recordType: string, stamp: Stamp)

  function Printed(p: Parts): string
    requires p.stamp.Valid()
  {
    Promised(p.site, p.group, Filename(p.cam, p.recordType, p.stamp))
  }

  predicate IsDigit(c: char) { '0' <= c <= '9' }

  function Value(s: string): nat
    requires |s| == 2 && IsDigit(s[0]) && IsDigit(s[1])
  {
    (s[0] as int - 48) * 10 + (s[1] as int - 48)
  }

  function ParseStamp(s: string): (t: Option<Stamp>)
    ensures t.Some? ==> t.value.Valid()
  {
    if |s| == 16 && s[8] == 'T' && s[15] == 'Z'
       && (forall i :: 0 <= i < 15 && i != 8 ==> IsDigit(s[i]))
    then Some(Stamp(Value(s[0..2]) * 100 + Value(s[2..4]), Value(s[4..6]), Value(s[6..8]),
                    Value(s[9..11]), Value(s[11..13]), Value(s[13..15])))
    else None
  }

  /** The position of the last underscore. */
  function LastUnderscore(s: string): (k: Option<nat>)
    ensures k.Some? ==> k.value < |s| && s[k.value] == '_'
  {
    if s == "" then None
    else if s[|s| - 1] == '_' then Some(|s| - 1)
    else LastUnderscore(s[..|s| - 1])
  }

  function ParseFile(site: string, group: string, file: string): Option<Parts>
  {
    if |file| < 21 || file[|file| - 4..] != ".mp4" || file[|file| - 21] != '_' then None else
    var head := file[..|file| - 21];
    var stamp := ParseStamp(file[|file| - 20..|file| - 4]);
    var k := LastUnderscore(head);
    if stamp.None? || k.None? then None
    else Some(Parts(site, group, head[..k.value], head[k.value + 1..], stamp.value))
  }

  /** Site and group are the first two segments; the file name is read from its right end. */
  function Parse(key: string): Option<Parts>
  {
    var segments := Split(key);
    if |segments| != 3 then None else ParseFile(segments[0], segments[1], segments[2])
  }

  lemma TwoRoundTrip(n: nat)
    requires n < 100
    ensures IsDigit(Two(n)[0]) && IsDigit(Two(n)[1]) && Value(Two(n)) == n
  {}

  lemma ValueRoundTrip(s: string)
    requires |s| == 2 && IsDigit(s[0]) && IsDigit(s[1])
    ensures Value(s) < 100 && Two(Value(s)) == s
  {
    var a, b := s[0] as int - 48, s[1] as int - 48;
    assert (a * 10 + b) / 10 == a && (a * 10 + b) % 10 == b;
  }

  lemma StampRoundTrip(t: Stamp)
    requires t.Valid()
    ensures ParseStamp(Format(t)) == Some(t)
  {
    TwoRoundTrip(t.year / 100);
    TwoRoundTrip(t.year % 100);
    TwoRoundTrip(t.month);
    TwoRoundTrip(t.day);
    TwoRoundTrip(t.hour);
    TwoRoundTrip(t.minute);
    TwoRoundTrip(t.second);
    var s := Format(t);
    assert s[0..2] == Two(t.year / 100) && s[2..4] == Two(t.year % 100) && s[4..6] == Two(t.month);
    assert s[6..8] == Two(t.day) && s[9..11] == Two(t.hour) && s[11..13] == Two(t.minute) && s[13..15] == Two(t.second);
  }

  /** A number in decimal digits. */
  function Decimal(s: string): int
  {
    if s == "" then 0 else 10 * Decimal(s[..|s| - 1]) + (s[|s| - 1] as int - '0' as int)
  }

  lemma TwoIsDecimal(n: nat)
    requires n < 100
    ensures Decimal(Two(n)) == n
  {
    assert Two(n)[..1][..0] == "";
    assert Decimal(Two(n)[..1]) == n / 10;
  }

  lemma FourIsDecimal(n: nat)
    requires n < 10000
    ensures Decimal(Two(n / 100) + Two(n % 100)) == n
  {
    var high, low := Two(n / 100), Two(n % 100);
    TwoIsDecimal(n / 100);
    TwoIsDecimal(n % 100);
    assert (high + low)[..3] == high + low[..1] && (high + low[..1])[..2] == high && low[..1][..0] == "";
    assert Decimal(low[..1]) == n % 100 / 10;
  }

  /** Year, month and day, `T`, hour, minute and second, `Z`: the printed instant reads as the layout says. */
  lemma FormatReads(t: Stamp)
    requires t.Valid()
    ensures var s := Format(t);
            && Decimal(s[..4]) == t.year && Decimal(s[4..6]) == t.month && Decimal(s[6..8]) == t.day
            && s[8] == 'T' && Decimal(s[9..11]) == t.hour && Decimal(s[11..13]) == t.minute
            && Decimal(s[13..15]) == t.second && s[15] == 'Z'
  {
    var s := Format(t);
    assert s[..4] == Two(t.year / 100) + Two(t.year % 100) && s[4..6] == Two(t.month) && s[6..8] == Two(t.day);
    assert s[9..11] == Two(t.hour) && s[11..13] == Two(t.minute) && s[13..15] == Two(t.second);
    FourIsDecimal(t.year);
    TwoIsDecimal(t.month);
    TwoIsDecimal(t.day);
    TwoIsDecimal(t.hour);
    TwoIsDecimal(t.minute);
    TwoIsDecimal(t.second);
  }

  lemma FormatRoundTrip(s: string)
    requires ParseStamp(s).Some?
    ensures Format(ParseStamp(s).value) == s
  {
    ValueRoundTrip(s[0..2]);
    ValueRoundTrip(s[2..4]);
    ValueRoundTrip(s[4..6]);
    ValueRoundTrip(s[6..8]);
    ValueRoundTrip(s[9..11]);
    ValueRoundTrip(s[11..13]);
    ValueRoundTrip(s[13..15]);
    var high, low := Value(s[0..2]), Value(s[2..4]);
    assert (high * 100 + low) / 100 == high && (high * 100 + low) % 100 == low;
  }

  lemma {:induction false} LastUnderscoreFound(cam: string, recordType: string)
    requires !Has(recordType, '_')
    ensures LastUnderscore(cam + "_" + recordType) == Some(|cam|)
  {
    var s := cam + "_" + recordType;
    var n := |recordType|;
    if n > 0 {
      assert Has(recordType, recordType[n - 1]);
      assert s[|s| - 1] == recordType[n - 1];
      assert s[..|s| - 1] == cam + "_" + recordType[..n - 1];
      LastUnderscoreFound(cam, recordType[..n - 1]);
    }
  }

  lemma FileRoundTrip(site: string, group: string, cam: string, recordType: string, t: Stamp)
    requires t.Valid() && !Has(recordType, '_')
    ensures ParseFile(site, group, Filename(cam, recordType, t)) == Some(Parts(site, group, cam, recordType, t))
  {
    var head := cam + "_" + recordType;
    var file := Filename(cam, recordType, t);
    StampRoundTrip(t);
    LastUnderscoreFound(cam, recordType);
    assert file[..|file| - 21] == head;
    assert file[|file| - 20..|file| - 4] == Format(t);
    assert file[|file| - 4..] == ".mp4";
    assert head[..|cam|] == cam && head[|cam| + 1..] == recordType;
  }

  /** Every key the parser accepts is the print of what it returns. */
  lemma ParseRoundTrip(key: string)
    requires Parse(key).Some?
    ensures Parse(key).value.stamp.Valid() && Printed(Parse(key).value) == key
  {
    var segments := Split(key);
    JoinedSplit(key);
    JoinedLengths(segments[0], segments[1], segments[2]);
    assert segments == [segments[0], segments[1], segments[2]];
    FileIsPrint(segments[0], segments[1], segments[2]);
  }

  lemma FileIsPrint(site: string, group: string, file: string)
    requires ParseFile(site, group, file).Some?
    ensures var p := ParseFile(site, group, file).value;
            && p.site == site && p.group == group && p.stamp.Valid()
            && Filename(p.cam, p.recordType, p.stamp) == file
  {
    var head, ts := file[..|file| - 21], file[|file| - 20..|file| - 4];
    FileParts(file);
    FormatRoundTrip(ts);
    HeadParts(head, LastUnderscore(head).value);
  }

  lemma FileParts(file: string)
    requires |file| >= 21 && file[|file| - 4..] == ".mp4" && file[|file| - 21] == '_'
    ensures file == file[..|file| - 21] + "_" + file[|file| - 20..|file| - 4] + ".mp4"
  {}

  lemma HeadParts(head: string, k: nat)
    requires k < |head| && head[k] == '_'
    ensures head == head[..k] + "_" + head[k + 1..]
  {}

  /** What a recording's key is to be read back as. */
  function Sources(site: string, group: string, camId: string, recordType: string, t: Stamp): Parts
    requires Sanitize(site, "site").Ok? && Sanitize(group, "group").Ok? && Sanitize(camId, "cam_id").Ok?
  {
    Parts(Sanitize(site, "site").value, Sanitize(group, "group").value, Sanitize(camId, "cam_id").value, recordType, t)
  }

  /**
   * Whatever underscores site, group and camera hold, a key is read back to its sanitized parts exactly when
   * it keeps its promised form; the two record types the server admits have neither underscore nor slash.
   */
  lemma KeyRoundTrip(site: string, group: string, camId: string, recordType: string, t: Stamp)
    requires t.Valid() && !Has(recordType, '/') && !Has(recordType, '_')
    requires Build(site, group, camId, recordType, t).Ok?
    ensures var parts := Sources(site, group, camId, recordType, t);
            Parse(Build(site, group, camId, recordType, t).value.objectKey) == Some(parts)
            <==> KeptByJoin(parts.site, parts.group)
  {
    var parts := Sources(site, group, camId, recordType, t);
    var key := Build(site, group, camId, recordType, t).value.objectKey;
    var s, g, c := parts.site, parts.group, parts.cam;
    KeyIsAsPromised(site, group, camId, recordType, t);
    SanitizedIsSegment(site, "site");
    SanitizedIsSegment(group, "group");
    SanitizedIsSegment(camId, "cam_id");
    FilenameIsSegment(c, recordType, t);
    SplitThree(s, g, Filename(c, recordType, t));
    FileRoundTrip(s, g, c, recordType, t);
    if Parse(key) == Some(parts) {
      ParseRoundTrip(key);
    }
  }

  /** What `buildRecordObjectKey` is called with. */
  datatype Recording = Recording(site: string, group: string, camId: string, recordType: string, stamp: Stamp)

  /** A four-digit year, a type without slash or underscore, and no blank field: the call succeeds. */
  predicate Buildable(a: Recording)
  {
    && a.stamp.Valid() && !Has(a.recordType, '/') && !Has(a.recordType, '_')
    && Build(a.site, a.group, a.camId, a.recordType, a.stamp).Ok?
  }

  function KeyOf(a: Recording): string
    requires Buildable(a)
  {
    Build(a.site, a.group, a.camId, a.recordType, a.stamp).value.objectKey
  }

  function SourcesOf(a: Recording): Parts
    requires Buildable(a)
  {
    Sources(a.site, a.group, a.camId, a.recordType, a.stamp)
  }

  /** `b` differs from `a` in a sanitized part and has its key all the same. */
  predicate SharesKey(a: Recording, b: Recording)
    requires Buildable(a)
  {
    Buildable(b) && KeyOf(b) == KeyOf(a) && SourcesOf(b) != SourcesOf(a)
  }

  /** A kept key belongs to no other recording: a key that is not kept has fewer segments. */
  lemma KeptKeyIsUnique(a: Recording, b: Recording)
    requires Buildable(a) && Buildable(b) && KeyOf(a) == KeyOf(b)
    requires KeptByJoin(SourcesOf(a).site, SourcesOf(a).group)
    ensures SourcesOf(b) == SourcesOf(a)
  {
    KeyRoundTrip(a.site, a.group, a.camId, a.recordType, a.stamp);
    KeyRoundTrip(b.site, b.group, b.camId, b.recordType, b.stamp);
    KeySegments(a);
    KeySegments(b);
  }

  /** The segments of the key. */
  lemma KeySegments(a: Recording)
    requires Buildable(a)
    ensures var p := SourcesOf(a); var file := Filename(p.cam, p.recordType, p.stamp);
            && Split(KeyOf(a)) == Cleaned([], [p.site, p.group, file])
            && (|Split(KeyOf(a))| == 3 <==> KeptByJoin(p.site, p.group))
  {
    var p := SourcesOf(a);
    var f := Filename(p.cam, p.recordType, p.stamp);
    SanitizedIsSegment(a.site, "site");
    SanitizedIsSegment(a.group, "group");
    SanitizedIsSegment(a.camId, "cam_id");
    FilenameIsSegment(p.cam, p.recordType, p.stamp);
    SplitThree(p.site, p.group, f);
    CleanedThree(p.site, p.group, f);
    JoinedLengths(p.site, p.group, f);
    SplitWhole(f);
    SplitFirst(p.group, f);
    SplitFirst(p.site, f);
  }

  /** Another site and group that a resolved pair comes to. */
  function Twin(site: string, group: string): (string, string)
  {
    if site == "." && group == "." then ("x", "..")
    else if site == "." then (group, ".")
    else if group == "." then (".", site)
    else (".", ".")
  }

  lemma TwinIsResolvedAlike(site: string, group: string, file: string)
    requires site != "" && group != "" && file !in ["", ".", ".."] && !KeptByJoin(site, group)
    ensures var twin := Twin(site, group);
            && twin != (site, group) && twin.0 != "" && twin.1 != ""
            && Cleaned([], [twin.0, twin.1, file]) == Cleaned([], [site, group, file])
  {
    var twin := Twin(site, group);
    CleanedThree(site, group, file);
    CleanedThree(twin.0, twin.1, file);
  }

  /** A sanitized field is sanitized to itself. */
  lemma SanitizedStays(value: string, field: string, again: string)
    requires Sanitize(value, field).Ok?
    ensures Sanitize(Sanitize(value, field).value, again) == Ok(Sanitize(value, field).value)
  {
    var left, right := TrimmedOnBothSides(value);
    PlainName(Sanitize(value, field).value, again);
  }

  /** A recording that shares the key of one whose key is not kept. */
  lemma KeyTwin(a: Recording) returns (b: Recording)
    requires Buildable(a) && !KeptByJoin(SourcesOf(a).site, SourcesOf(a).group)
    ensures SharesKey(a, b)
  {
    var p := SourcesOf(a);
    var twin := Twin(p.site, p.group);
    b := a.(site := twin.0, group := twin.1);
    SanitizedIsSegment(a.site, "site");
    SanitizedIsSegment(a.group, "group");
    SanitizedStays(a.site, "site", "group");
    SanitizedStays(a.group, "group", "site");
    PlainName(".", "site");
    PlainName(".", "group");
    PlainName("x", "site");
    PlainName("..", "group");
    assert Sanitize(b.site, "site") == Ok(twin.0) && Sanitize(b.group, "group") == Ok(twin.1);
    FilenameIsSegment(p.cam, p.recordType, p.stamp);
    SanitizedIsSegment(a.camId, "cam_id");
    TwinIsResolvedAlike(p.site, p.group, Filename(p.cam, p.recordType, p.stamp));
    KeySegments(a);
    KeySegments(b);
    JoinedSplit(KeyOf(a));
    JoinedSplit(KeyOf(b));
  }

  /** A recording's key is shared by one with other sanitized parts exactly when it does not keep its promised form. */
  lemma KeyIsShared(a: Recording)
    requires Buildable(a)
    ensures (exists b :: SharesKey(a, b)) <==> !KeptByJoin(SourcesOf(a).site, SourcesOf(a).group)
  {
    if KeptByJoin(SourcesOf(a).site, SourcesOf(a).group) {
      forall b ensures !SharesKey(a, b) {
        if Buildable(b) && KeyOf(b) == KeyOf(a) { KeptKeyIsUnique(a, b); }
      }
    } else {
      var b := KeyTwin(a);
    }
  }
}
