// Semantic version strings as golang.org/x/mod/semver reads them: a leading
// "v", MAJOR[.MINOR[.PATCH[-PRERELEASE][+BUILD]]], compared by section 11 of
// Semantic Versioning 2.0.0.
module SemVer {
  import opened Outcomes
  import opened Strings

  // One dot-separated identifier of a prerelease.
  datatype Ident = Numeric(n: nat) | Text(s: string)

  // Build metadata has no precedence, so a parsed version does not hold it.
  datatype Version = Version(major: nat, minor: nat, patch: nat, pre: seq<Ident>)

  predicate IsDigit(c: char) {
    '0' <= c <= '9'
  }

  predicate IsIdentChar(c: char) {
    IsDigit(c) || 'a' <= c <= 'z' || 'A' <= c <= 'Z' || c == '-'
  }

  predicate IsVersionChar(c: char) {
    IsIdentChar(c) || c == '.' || c == '+'
  }

  // Identifiers are made of digits, letters and hyphens, by their code points.
  lemma IdentCodes(c: char)
    ensures IsIdentChar(c) <==>
              var n := c as int;
              n == 0x2D || 0x30 <= n <= 0x39 || 0x41 <= n <= 0x5A || 0x61 <= n <= 0x7A
  {
  }

  predicate Plain(s: string) {
    forall i :: 0 <= i < |s| ==> IsVersionChar(s[i])
  }

  function DigitRun(s: string): (n: nat)
    ensures n <= |s|
  {
    if s != "" && IsDigit(s[0]) then 1 + DigitRun(s[1..]) else 0
  }

  function DigitValue(c: char): nat {
    if IsDigit(c) then c as int - '0' as int else 0
  }

  function Number(digits: string): nat {
    if digits == "" then 0 else 10 * Number(digits[..|digits| - 1]) + DigitValue(digits[|digits| - 1])
  }

  // A number without leading zeros, and what follows it.
  function ParseNumber(s: string): Option<(nat, string)> {
    var k := DigitRun(s);
    if k == 0 || (s[0] == '0' && k != 1) then None else Some((Number(s[..k]), s[k..]))
  }

  predicate IsIdent(s: string) {
    s != "" && forall i :: 0 <= i < |s| ==> IsIdentChar(s[i])
  }

  function ParseIdent(s: string): Option<Ident> {
    if !IsIdent(s) then None
    else if DigitRun(s) < |s| then Some(Text(s))
    else if |s| > 1 && s[0] == '0' then None
    else Some(Numeric(Number(s)))
  }

  function ParseIdents(parts: seq<string>): Option<seq<Ident>> {
    if parts == [] then Some([])
    else match ParseIdent(parts[0])
      case None => None
      case Some(id) =>
        match ParseIdents(parts[1..])
        case None => None
        case Some(ids) => Some([id] + ids)
  }

  // How much of s lies before its first '+'.
  function UpToPlus(s: string): (n: nat)
    ensures n <= |s|
  {
    if s == "" || s[0] == '+' then 0 else 1 + UpToPlus(s[1..])
  }

  predicate IsBuild(s: string) {
    s == "" || (s[0] == '+' && forall i :: 0 <= i < |Split(s[1..], '.')| ==> IsIdent(Split(s[1..], '.')[i]))
  }

  // What may follow the patch number: [-PRERELEASE][+BUILD].
  function ParseTail(s: string): Option<seq<Ident>> {
    if s == "" || s[0] != '-' then (if IsBuild(s) then Some([]) else None)
    else
      var k := UpToPlus(s);
      if k > 0 && IsBuild(s[k..]) then ParseIdents(Split(s[1..k], '.')) else None
  }

  // The numbers still to read, after those in `read`, and what follows them.
  function ParseNumbers(s: string, read: seq<nat>): Option<Version>
    requires |read| < 3
    decreases 3 - |read|
  {
    match ParseNumber(s)
    case None => None
    case Some((n, rest)) =>
      var numbers := read + [n];
      if |numbers| == 3 then
        match ParseTail(rest)
        case None => None
        case Some(pre) => Some(Version(numbers[0], numbers[1], numbers[2], pre))
      else if rest == "" then
        Some(Version(numbers[0], if |numbers| > 1 then numbers[1] else 0, 0, []))
      else if rest[0] == '.' then ParseNumbers(rest[1..], numbers)
      else None
  }

  // semver.IsValid and the parse behind semver.Compare; the short forms v1 and
  // v1.2 stand for v1.0.0 and v1.2.0.
  function Parse(v: string): Option<Version> {
    if v == "" || v[0] != 'v' then None else ParseNumbers(v[1..], [])
  }

  predicate IsValid(v: string) {
    Parse(v).Some?
  }

  // ------------------------------------------------------------ precedence

  function CompareInt(a: int, b: int): int {
    if a < b then -1 else if a > b then 1 else 0
  }

  // ASCII order.
  function CompareText(a: string, b: string): int {
    if a == "" then (if b == "" then 0 else -1)
    else if b == "" then 1
    else if a[0] != b[0] then CompareInt(a[0] as int, b[0] as int)
    else CompareText(a[1..], b[1..])
  }

  // Numeric identifiers are below alphanumeric ones.
  function CompareIdent(a: Ident, b: Ident): int {
    if a.Numeric? && b.Numeric? then CompareInt(a.n, b.n)
    else if a.Numeric? then -1
    else if b.Numeric? then 1
    else CompareText(a.s, b.s)
  }

  // Left to right; of two lists with equal heads the longer is higher.
  function CompareIdents(a: seq<Ident>, b: seq<Ident>): int {
    if a == [] then (if b == [] then 0 else -1)
    else if b == [] then 1
    else if a[0] != b[0] then CompareIdent(a[0], b[0])
    else CompareIdents(a[1..], b[1..])
  }

  // A prerelease is below the release it precedes.
  function ComparePre(a: seq<Ident>, b: seq<Ident>): int {
    if a == [] then (if b == [] then 0 else 1)
    else if b == [] then -1
    else CompareIdents(a, b)
  }

  function Compare(a: Version, b: Version): int {
    if a.major != b.major then CompareInt(a.major, b.major)
    else if a.minor != b.minor then CompareInt(a.minor, b.minor)
    else if a.patch != b.patch then CompareInt(a.patch, b.patch)
    else ComparePre(a.pre, b.pre)
  }

  // semver.Compare: an invalid version is below every valid one.
  function CompareStrings(v: string, w: string): int {
    match (Parse(v), Parse(w))
    case (None, None) => 0
    case (None, Some(_)) => -1
    case (Some(_), None) => 1
    case (Some(a), Some(b)) => Compare(a, b)
  }

  lemma {:induction false} TextOrder(a: string, b: string, c: string)
    ensures CompareText(a, b) == 0 - CompareText(b, a)
    ensures CompareText(a, b) == 0 <==> a == b
    ensures CompareText(a, b) <= 0 && CompareText(b, c) <= 0 ==> CompareText(a, c) <= 0
  {
    if a != "" && b != "" {
      TextOrder(a[1..], b[1..], if c == "" then "" else c[1..]);
      assert a == [a[0]] + a[1..] && b == [b[0]] + b[1..];
    }
  }

  lemma IdentOrder(a: Ident, b: Ident, c: Ident)
    ensures CompareIdent(a, b) == 0 - CompareIdent(b, a)
    ensures CompareIdent(a, b) == 0 <==> a == b
    ensures CompareIdent(a, b) <= 0 && CompareIdent(b, c) <= 0 ==> CompareIdent(a, c) <= 0
  {
    if a.Text? && b.Text? {
      TextOrder(a.s, b.s, if c.Text? then c.s else "");
    }
  }

  lemma {:induction false} IdentsOrder(a: seq<Ident>, b: seq<Ident>, c: seq<Ident>)
    ensures CompareIdents(a, b) == 0 - CompareIdents(b, a)
    ensures CompareIdents(a, b) == 0 <==> a == b
    ensures CompareIdents(a, b) <= 0 && CompareIdents(b, c) <= 0 ==> CompareIdents(a, c) <= 0
  {
    if a != [] && b != [] {
      IdentsOrder(a[1..], b[1..], if c == [] then [] else c[1..]);
      IdentOrder(a[0], b[0], if c == [] then a[0] else c[0]);
      assert a == [a[0]] + a[1..] && b == [b[0]] + b[1..];
      if c != [] {
        IdentOrder(a[0], c[0], b[0]);
        IdentOrder(b[0], c[0], a[0]);
      }
    }
  }

  // Precedence is a total order on what the strings mean, hence a total
  // preorder on the strings.
  lemma PrecedenceIsTotalOrder(a: Version, b: Version, c: Version)
    ensures Compare(a, a) == 0
    ensures Compare(a, b) == 0 - Compare(b, a)
    ensures Compare(a, b) == 0 <==> a == b
    ensures Compare(a, b) <= 0 && Compare(b, c) <= 0 ==> Compare(a, c) <= 0
  {
    IdentsOrder(a.pre, b.pre, c.pre);
    IdentsOrder(a.pre, a.pre, a.pre);
  }

  // ------------------------------------------------------------ characters

  lemma {:induction false} FieldsCover(s: string)
    requires forall i :: 0 <= i < |Split(s, '.')| ==>
               forall j :: 0 <= j < |Split(s, '.')[i]| ==> IsIdentChar(Split(s, '.')[i][j])
    ensures Plain(s)
  {
    if s != "" {
      var rest := Split(s[1..], '.');
      forall i, j | 0 <= i < |rest| && 0 <= j < |rest[i]|
        ensures IsIdentChar(rest[i][j])
      {
        if s[0] == '.' {
          assert Split(s, '.')[i + 1] == rest[i];
        } else if i == 0 {
          assert Split(s, '.')[0][j + 1] == rest[0][j];
        } else {
          assert Split(s, '.')[i] == rest[i];
        }
      }
      FieldsCover(s[1..]);
      if s[0] != '.' {
        assert Split(s, '.')[0][0] == s[0];
      }
      assert s == [s[0]] + s[1..];
    }
  }

  lemma {:induction false} IdentsAreIdents(parts: seq<string>)
    requires ParseIdents(parts).Some?
    ensures forall i :: 0 <= i < |parts| ==> IsIdent(parts[i])
  {
    if parts != [] {
      IdentsAreIdents(parts[1..]);
      assert parts == [parts[0]] + parts[1..];
    }
  }

  lemma TailChars(s: string)
    requires ParseTail(s).Some?
    ensures Plain(s)
  {
    var k := if s == "" || s[0] != '-' then 0 else UpToPlus(s);
    if s[k..] != "" {
      FieldsCover(s[k..][1..]);
      assert s[k..] == [s[k]] + s[k..][1..];
    }
    if k > 0 {
      IdentsAreIdents(Split(s[1..k], '.'));
      FieldsCover(s[1..k]);
      assert s == [s[0]] + s[1..k] + s[k..];
    } else {
      assert s == s[k..];
    }
  }

  lemma {:induction false} DigitRunDigits(s: string)
    ensures forall i :: 0 <= i < DigitRun(s) ==> IsDigit(s[i])
  {
    if s != "" && IsDigit(s[0]) {
      DigitRunDigits(s[1..]);
      forall i | 0 <= i < DigitRun(s)
        ensures IsDigit(s[i])
      {
        assert i > 0 ==> s[i] == s[1..][i - 1];
      }
    }
  }

  lemma NumberChars(s: string)
    requires ParseNumber(s).Some?
    requires Plain(ParseNumber(s).value.1)
    ensures Plain(s)
  {
    DigitRunDigits(s);
    var k := DigitRun(s);
    forall i | 0 <= i < |s|
      ensures IsVersionChar(s[i])
    {
      if i >= k {
        assert s[i] == s[k..][i - k];
      }
    }
  }

  lemma {:induction false} NumbersChars(s: string, read: seq<nat>)
    requires |read| < 3 && ParseNumbers(s, read).Some?
    ensures Plain(s)
    decreases 3 - |read|
  {
    var n, rest := ParseNumber(s).value.0, ParseNumber(s).value.1;
    if |read| == 2 {
      TailChars(rest);
    } else if rest != "" {
      NumbersChars(rest[1..], read + [n]);
      assert rest == [rest[0]] + rest[1..];
    }
    NumberChars(s);
  }

  lemma PlainHasNoNul(v: string)
    requires v != "" && v[0] == 'v' && Plain(v[1..])
    ensures '\0' !in v
  {
    forall i | 0 <= i < |v|
      ensures v[i] != '\0'
    {
      if i > 0 {
        assert IsVersionChar(v[1..][i - 1]);
      }
    }
  }

  // A valid version is made of a few ASCII characters; no NUL is among them.
  lemma ValidChars(v: string)
    requires IsValid(v)
    ensures v != "" && Plain(v[1..]) && '\0' !in v
  {
    NumbersChars(v[1..], []);
    PlainHasNoNul(v);
  }

  // ------------------------------------------------------------ section 11

  // Precedence as the standard words it: by the first difference, or by length.
  ghost predicate TextBefore(a: string, b: string) {
    || (a <= b && a != b)
    || exists i :: 0 <= i < |a| && i < |b| && a[..i] == b[..i] && a[i] < b[i]
  }

  ghost predicate IdentBefore(a: Ident, b: Ident) {
    if a.Numeric? then (b.Numeric? ==> a.n < b.n) else b.Text? && TextBefore(a.s, b.s)
  }

  ghost predicate IdentsBefore(a: seq<Ident>, b: seq<Ident>) {
    || (a <= b && a != b)
    || exists i :: 0 <= i < |a| && i < |b| && a[..i] == b[..i] && IdentBefore(a[i], b[i])
  }

  ghost predicate Before(a: Version, b: Version) {
    || a.major < b.major
    || (a.major == b.major && a.minor < b.minor)
    || (a.major == b.major && a.minor == b.minor && a.patch < b.patch)
    || (a.major == b.major && a.minor == b.minor && a.patch == b.patch &&
        if b.pre == [] then a.pre != [] else a.pre != [] && IdentsBefore(a.pre, b.pre))
  }

  // The first difference lies at the head, or in the tails of equal heads.
  lemma TextBeforeStep(a: string, b: string)
    requires a != "" && b != ""
    ensures TextBefore(a, b) <==> a[0] < b[0] || (a[0] == b[0] && TextBefore(a[1..], b[1..]))
  {
    assert a == [a[0]] + a[1..] && b == [b[0]] + b[1..];
    if i :| 0 <= i < |a| && i < |b| && a[..i] == b[..i] && a[i] < b[i] {
      if i > 0 {
        assert a[0] == a[..i][0] && b[0] == b[..i][0];
        assert a[1..][..i - 1] == a[..i][1..] && b[1..][..i - 1] == b[..i][1..];
        assert a[1..][i - 1] < b[1..][i - 1];
      }
    }
    if a[0] < b[0] {
      assert a[..0] == b[..0];
    }
    if a[0] == b[0] {
      if i :| 0 <= i < |a[1..]| && i < |b[1..]| && a[1..][..i] == b[1..][..i] && a[1..][i] < b[1..][i] {
        assert a[..i + 1] == [a[0]] + a[1..][..i] && b[..i + 1] == [b[0]] + b[1..][..i];
        assert a[i + 1] < b[i + 1];
      }
    }
  }

  lemma {:induction false} TextRule(a: string, b: string)
    ensures CompareText(a, b) < 0 <==> TextBefore(a, b)
  {
    if a != "" && b != "" {
      TextBeforeStep(a, b);
      TextRule(a[1..], b[1..]);
    }
  }

  lemma IdentRule(a: Ident, b: Ident)
    ensures CompareIdent(a, b) < 0 <==> IdentBefore(a, b)
  {
    if a.Text? && b.Text? {
      TextRule(a.s, b.s);
    }
  }

  lemma IdentsBeforeStep(a: seq<Ident>, b: seq<Ident>)
    requires a != [] && b != []
    ensures IdentsBefore(a, b) <==> IdentBefore(a[0], b[0]) || (a[0] == b[0] && IdentsBefore(a[1..], b[1..]))
  {
    assert a == [a[0]] + a[1..] && b == [b[0]] + b[1..];
    if i :| 0 <= i < |a| && i < |b| && a[..i] == b[..i] && IdentBefore(a[i], b[i]) {
      if i > 0 {
        assert a[0] == a[..i][0] && b[0] == b[..i][0];
        assert a[1..][..i - 1] == a[..i][1..] && b[1..][..i - 1] == b[..i][1..];
        assert IdentBefore(a[1..][i - 1], b[1..][i - 1]);
      }
    }
    if IdentBefore(a[0], b[0]) {
      assert a[..0] == b[..0];
    }
    if a[0] == b[0] {
      if i :| 0 <= i < |a[1..]| && i < |b[1..]| && a[1..][..i] == b[1..][..i] && IdentBefore(a[1..][i], b[1..][i]) {
        assert a[..i + 1] == [a[0]] + a[1..][..i] && b[..i + 1] == [b[0]] + b[1..][..i];
        assert IdentBefore(a[i + 1], b[i + 1]);
      }
    }
  }

  lemma {:induction false} IdentsRule(a: seq<Ident>, b: seq<Ident>)
    ensures CompareIdents(a, b) < 0 <==> IdentsBefore(a, b)
  {
    if a != [] && b != [] {
      IdentsBeforeStep(a, b);
      IdentRule(a[0], b[0]);
      IdentOrder(a[0], b[0], a[0]);
      IdentsRule(a[1..], b[1..]);
    }
  }

  // The comparison is exactly the standard's rule.
  lemma PrecedenceRule(a: Version, b: Version)
    ensures Compare(a, b) < 0 <==> Before(a, b)
  {
    IdentsRule(a.pre, b.pre);
  }

  // ------------------------------------------------------------ what parses

  function DigitChar(d: nat): char
    requires d < 10
  {
    ('0' as int + d) as char
  }

  function Decimal(n: nat): string {
    if n < 10 then [DigitChar(n)] else Decimal(n / 10) + [DigitChar(n % 10)]
  }

  ghost predicate AllDigits(s: string) {
    forall i :: 0 <= i < |s| ==> IsDigit(s[i])
  }

  lemma {:induction false} DecimalReads(n: nat)
    ensures Decimal(n) != "" && AllDigits(Decimal(n)) && Number(Decimal(n)) == n
    ensures Decimal(n)[0] == '0' ==> n == 0
  {
    if n >= 10 {
      DecimalReads(n / 10);
      var d := Decimal(n);
      assert d[..|d| - 1] == Decimal(n / 10);
      assert DigitValue(d[|d| - 1]) == n % 10;
    } else {
      assert [DigitChar(n)][..0] == "";
    }
  }

  lemma {:induction false} DecimalOfNumber(s: string)
    requires s != "" && AllDigits(s) && (s[0] == '0' ==> |s| == 1)
    ensures Decimal(Number(s)) == s
  {
    var init, last := s[..|s| - 1], s[|s| - 1];
    assert s == init + [last];
    assert IsDigit(last) && DigitChar(DigitValue(last)) == last;
    if init != "" {
      DecimalOfNumber(init);
      DecimalReads(Number(init));
      assert Decimal(0) == "0";
    } else {
      assert Number(init) == 0;
    }
  }

  lemma {:induction false} DigitRunOf(digits: string, rest: string)
    requires AllDigits(digits) && (rest == "" || !IsDigit(rest[0]))
    ensures DigitRun(digits + rest) == |digits|
  {
    if digits == "" {
      assert digits + rest == rest;
    } else {
      assert (digits + rest)[1..] == digits[1..] + rest;
      DigitRunOf(digits[1..], rest);
    }
  }

  lemma {:induction false} DigitRunStops(s: string)
    ensures DigitRun(s) < |s| ==> !IsDigit(s[DigitRun(s)])
  {
    if s != "" && IsDigit(s[0]) {
      DigitRunStops(s[1..]);
    }
  }

  // A number is read exactly from its decimal form, and to its end.
  lemma NumberText(s: string, n: nat, rest: string)
    ensures ParseNumber(s) == Some((n, rest)) <==> s == Decimal(n) + rest && (rest == "" || !IsDigit(rest[0]))
  {
    DecimalReads(n);
    if s == Decimal(n) + rest && (rest == "" || !IsDigit(rest[0])) {
      DigitRunOf(Decimal(n), rest);
      assert s[..|Decimal(n)|] == Decimal(n) && s[|Decimal(n)|..] == rest;
      assert n == 0 ==> Decimal(n) == "0";
    }
    if ParseNumber(s) == Some((n, rest)) {
      var k := DigitRun(s);
      DigitRunDigits(s);
      DigitRunStops(s);
      DecimalOfNumber(s[..k]);
      assert s == s[..k] + s[k..];
    }
  }

  // The text of an identifier; numeric ones have no leading zeros.
  function IdentText(id: Ident): string {
    match id case Numeric(n) => Decimal(n) case Text(t) => t
  }

  ghost predicate IdentOk(id: Ident) {
    id.Text? ==> IsIdent(id.s) && !AllDigits(id.s)
  }

  lemma {:induction false} DigitRunAll(s: string)
    ensures DigitRun(s) == |s| <==> AllDigits(s)
  {
    DigitRunDigits(s);
    if AllDigits(s) {
      DigitRunOf(s, "");
      assert s + "" == s;
    }
  }

  lemma IdentReads(s: string, id: Ident)
    ensures ParseIdent(s) == Some(id) <==> s == IdentText(id) && IdentOk(id)
  {
    DigitRunAll(s);
    if id.Numeric? {
      DecimalReads(id.n);
      assert Decimal(0) == "0";
    }
    if ParseIdent(s).Some? && AllDigits(s) {
      DecimalOfNumber(s);
    }
  }

  function Texts(ids: seq<Ident>): (r: seq<string>)
    ensures |r| == |ids| && forall i :: 0 <= i < |r| ==> r[i] == IdentText(ids[i])
  {
    seq(|ids|, i requires 0 <= i < |ids| => IdentText(ids[i]))
  }

  function PreText(pre: seq<Ident>): string {
    if pre == [] then "" else "-" + Join(Texts(pre), '.')
  }

  ghost predicate PreOk(pre: seq<Ident>) {
    forall i :: 0 <= i < |pre| ==> IdentOk(pre[i])
  }

  lemma IdentsReadCons(parts: seq<string>, ids: seq<Ident>)
    requires parts != [] && ids != []
    ensures ParseIdents(parts) == Some(ids) <==>
              ParseIdent(parts[0]) == Some(ids[0]) && ParseIdents(parts[1..]) == Some(ids[1..])
  {
    assert ids == [ids[0]] + ids[1..];
  }

  lemma TextsCons(parts: seq<string>, ids: seq<Ident>)
    requires parts != [] && ids != []
    ensures PreOk(ids) && parts == Texts(ids) <==>
              IdentOk(ids[0]) && parts[0] == IdentText(ids[0]) && PreOk(ids[1..]) && parts[1..] == Texts(ids[1..])
  {
    assert ids == [ids[0]] + ids[1..] && parts == [parts[0]] + parts[1..];
    assert Texts(ids) == [IdentText(ids[0])] + Texts(ids[1..]);
  }

  lemma {:induction false} IdentsRead(parts: seq<string>, ids: seq<Ident>)
    ensures ParseIdents(parts) == Some(ids) <==> PreOk(ids) && parts == Texts(ids)
  {
    if parts != [] && ids != [] {
      IdentReads(parts[0], ids[0]);
      IdentsRead(parts[1..], ids[1..]);
      IdentsReadCons(parts, ids);
      TextsCons(parts, ids);
    }
  }

  lemma IdentTextChars(id: Ident)
    requires IdentOk(id)
    ensures IsIdent(IdentText(id))
  {
    if id.Numeric? {
      DecimalReads(id.n);
    }
  }

  lemma {:induction false} JoinedChars(parts: seq<string>)
    requires |parts| > 0 && forall i :: 0 <= i < |parts| ==> IsIdent(parts[i])
    ensures '+' !in Join(parts, '.')
  {
    assert '+' !in parts[0];
    if |parts| > 1 {
      JoinedChars(parts[1..]);
    }
  }

  lemma PreReads(s: string, ids: seq<Ident>)
    ensures ParseIdents(Split(s, '.')) == Some(ids) <==> ids != [] && PreOk(ids) && s == Join(Texts(ids), '.')
  {
    IdentsRead(Split(s, '.'), ids);
    JoinSplit(s, '.');
    if ids != [] && PreOk(ids) {
      forall i | 0 <= i < |ids|
        ensures '.' !in Texts(ids)[i]
      {
        IdentTextChars(ids[i]);
      }
      SplitJoin(Texts(ids), '.');
    }
  }

  lemma {:induction false} UpToPlusOf(a: string, b: string)
    requires '+' !in a && (b == "" || b[0] == '+')
    ensures UpToPlus(a + b) == |a|
  {
    if a == "" {
      assert a + b == b;
    } else {
      assert (a + b)[1..] == a[1..] + b;
      UpToPlusOf(a[1..], b);
    }
  }

  ghost predicate IsTail(s: string, pre: seq<Ident>, build: string) {
    IsBuild(build) && PreOk(pre) && s == PreText(pre) + build
  }

  lemma TailReads(s: string, pre: seq<Ident>, build: string)
    requires IsTail(s, pre, build) && pre != []
    ensures ParseTail(s) == Some(pre)
  {
    forall i | 0 <= i < |pre|
      ensures IsIdent(Texts(pre)[i])
    {
      IdentTextChars(pre[i]);
    }
    var joined := Join(Texts(pre), '.');
    JoinedChars(Texts(pre));
    UpToPlusOf("-" + joined, build);
    assert s == "-" + joined + build;
    assert s[1..|joined| + 1] == joined && s[|joined| + 1..] == build;
    PreReads(joined, pre);
  }

  lemma TailParsed(s: string, pre: seq<Ident>)
    requires ParseTail(s) == Some(pre) && s != "" && s[0] == '-'
    ensures exists build :: IsTail(s, pre, build)
  {
    var k := UpToPlus(s);
    var joined, build := s[1..k], s[k..];
    PreReads(joined, pre);
    assert s == s[..1] + joined + build;
    assert s[..1] == "-";
    assert IsTail(s, pre, build);
  }

  lemma TailText(s: string, pre: seq<Ident>)
    ensures ParseTail(s) == Some(pre) <==> exists build :: IsTail(s, pre, build)
  {
    if build :| IsTail(s, pre, build) {
      if pre == [] {
        assert s == build;
      } else {
        TailReads(s, pre, build);
      }
    }
    if ParseTail(s) == Some(pre) {
      if s != "" && s[0] == '-' {
        TailParsed(s, pre);
      } else {
        assert PreText(pre) + s == s;
        assert IsTail(s, pre, s);
      }
    }
  }

  lemma TailStart(s: string, pre: seq<Ident>)
    requires ParseTail(s) == Some(pre)
    ensures s == "" || !IsDigit(s[0])
  {
  }

  lemma PatchText(s: string, major: nat, minor: nat, v: Version)
    ensures ParseNumbers(s, [major, minor]) == Some(v) <==>
              v.major == major && v.minor == minor && exists build :: IsPatch(s, v, build)
  {
    if build :| IsPatch(s, v, build) {
      var rest :| IsTail(rest, v.pre, build) && s == Decimal(v.patch) + rest;
      TailText(rest, v.pre);
      TailStart(rest, v.pre);
      NumberText(s, v.patch, rest);
    }
    if ParseNumbers(s, [major, minor]) == Some(v) {
      var rest := ParseNumber(s).value.1;
      NumberText(s, v.patch, rest);
      TailText(rest, v.pre);
      var build :| IsTail(rest, v.pre, build);
      assert IsPatch(s, v, build);
    }
  }

  ghost predicate IsPatch(s: string, v: Version, build: string) {
    exists rest :: IsTail(rest, v.pre, build) && s == Decimal(v.patch) + rest
  }

  // The two short forms, after the numbers already read.
  ghost predicate IsMinor(s: string, v: Version) {
    || (s == Decimal(v.minor) && v.patch == 0 && v.pre == [])
    || exists t, build :: s == Decimal(v.minor) + "." + t && IsPatch(t, v, build)
  }

  lemma ShortMinor(s: string, major: nat, minor: nat)
    requires s == Decimal(minor)
    ensures ParseNumbers(s, [major]) == Some(Version(major, minor, 0, []))
  {
    assert s == Decimal(minor) + "";
    NumberText(s, minor, "");
  }

  lemma LongMinor(s: string, major: nat, v: Version, t: string)
    requires s == Decimal(v.minor) + "." + t
    ensures ParseNumbers(s, [major]) == ParseNumbers(t, [major, v.minor])
  {
    assert s == Decimal(v.minor) + ("." + t);
    NumberText(s, v.minor, "." + t);
    assert ("." + t)[1..] == t && [major] + [v.minor] == [major, v.minor];
  }

  // What is read before the patch number: a number, then the end or a dot.
  lemma NumbersHead(s: string, read: seq<nat>, v: Version)
    requires |read| < 2 && ParseNumbers(s, read) == Some(v)
    ensures var n, rest := ParseNumber(s).value.0, ParseNumber(s).value.1;
            && s == Decimal(n) + rest
            && if rest == "" then v == (if read == [] then Version(n, 0, 0, []) else Version(read[0], n, 0, []))
               else rest[0] == '.' && ParseNumbers(rest[1..], read + [n]) == Some(v)
  {
    var n, rest := ParseNumber(s).value.0, ParseNumber(s).value.1;
    NumberText(s, n, rest);
    assert |read| == 1 ==> (read + [n])[0] == read[0];
  }

  lemma MinorWitness(s: string, v: Version, t: string, build: string)
    requires s == Decimal(v.minor) + ("." + t) && IsPatch(t, v, build)
    ensures IsMinor(s, v)
  {
    assert s == Decimal(v.minor) + "." + t;
  }

  lemma MinorOnward(s: string, major: nat, v: Version, n: nat, rest: string)
    requires s == Decimal(n) + rest && rest != "" && rest[0] == '.' && ParseNumbers(rest[1..], [major, n]) == Some(v)
    ensures v.major == major && IsMinor(s, v)
  {
    var t := rest[1..];
    PatchText(t, major, n, v);
    var build :| IsPatch(t, v, build);
    assert rest == "." + t;
    MinorWitness(s, v, t, build);
  }

  lemma MinorParsed(s: string, major: nat, v: Version)
    requires ParseNumbers(s, [major]) == Some(v)
    ensures v.major == major && IsMinor(s, v)
  {
    NumbersHead(s, [major], v);
    var n, rest := ParseNumber(s).value.0, ParseNumber(s).value.1;
    if rest == "" {
      assert s == Decimal(n);
    } else {
      assert [major] + [n] == [major, n];
      MinorOnward(s, major, v, n, rest);
    }
  }

  lemma MinorText(s: string, major: nat, v: Version)
    ensures ParseNumbers(s, [major]) == Some(v) <==> v.major == major && IsMinor(s, v)
  {
    if ParseNumbers(s, [major]) == Some(v) {
      MinorParsed(s, major, v);
    }
    if v.major == major && IsMinor(s, v) {
      if s == Decimal(v.minor) && v.patch == 0 && v.pre == [] {
        ShortMinor(s, major, v.minor);
      } else {
        var t, build :| s == Decimal(v.minor) + "." + t && IsPatch(t, v, build);
        LongMinor(s, major, v, t);
        PatchText(t, major, v.minor, v);
      }
    }
  }

  // The texts of a version: MAJOR, MAJOR.MINOR, or all three numbers with an
  // optional prerelease and any build metadata, behind a "v".
  ghost predicate IsText(text: string, v: Version) {
    || (text == "v" + Decimal(v.major) && v.minor == 0 && v.patch == 0 && v.pre == [])
    || exists s :: text == "v" + Decimal(v.major) + "." + s && IsMinor(s, v)
  }

  lemma ShortMajor(text: string, major: nat)
    requires text == "v" + Decimal(major)
    ensures Parse(text) == Some(Version(major, 0, 0, []))
  {
    assert text[1..] == Decimal(major) + "";
    NumberText(text[1..], major, "");
  }

  lemma LongMajor(text: string, major: nat, s: string)
    requires text == "v" + Decimal(major) + "." + s
    ensures Parse(text) == ParseNumbers(s, [major])
  {
    assert text[1..] == Decimal(major) + ("." + s);
    NumberText(text[1..], major, "." + s);
    assert ("." + s)[1..] == s && [] + [major] == [major];
  }

  lemma MajorOnward(text: string, v: Version, n: nat, rest: string)
    requires text == "v" + Decimal(n) + rest && rest != "" && rest[0] == '.' && ParseNumbers(rest[1..], [n]) == Some(v)
    ensures IsText(text, v)
  {
    MinorText(rest[1..], n, v);
    assert text == "v" + Decimal(n) + "." + rest[1..];
  }

  lemma MajorAlone(text: string, v: Version, n: nat)
    requires text == "v" + Decimal(n) && v == Version(n, 0, 0, [])
    ensures IsText(text, v)
  {
  }

  lemma MajorParsed(text: string, v: Version)
    requires Parse(text) == Some(v)
    ensures IsText(text, v)
  {
    var s := text[1..];
    assert text == "v" + s;
    NumbersHead(s, [], v);
    var n, rest := ParseNumber(s).value.0, ParseNumber(s).value.1;
    if rest == "" {
      assert s == Decimal(n);
      MajorAlone(text, v, n);
    } else {
      assert [] + [n] == [n];
      assert text == "v" + Decimal(n) + rest;
      MajorOnward(text, v, n, rest);
    }
  }

  // A string parses to a version exactly when it is one of its texts.
  lemma ParsesExactlyTexts(text: string, v: Version)
    ensures Parse(text) == Some(v) <==> IsText(text, v)
  {
    if Parse(text) == Some(v) {
      MajorParsed(text, v);
    }
    if IsText(text, v) {
      if text == "v" + Decimal(v.major) && v.minor == 0 && v.patch == 0 && v.pre == [] {
        ShortMajor(text, v.major);
      } else {
        var s :| text == "v" + Decimal(v.major) + "." + s && IsMinor(s, v);
        LongMajor(text, v.major, s);
        MinorText(s, v.major, v);
      }
    }
  }
}
