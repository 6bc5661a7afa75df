/** Turning column names into field names for a namedtuple: strip and replace what cannot be in
    an identifier, rename what is still unusable to its position, break ties with `_`. */
module FieldNames {

  predicate IsDigit(c: char) { '0' <= c <= '9' }

  predicate IsLetter(c: char) { 'a' <= c <= 'z' || 'A' <= c <= 'Z' }

  predicate IsAlphanumeric(c: char) { IsDigit(c) || IsLetter(c) }

  predicate IsWordChar(c: char) { IsAlphanumeric(c) || c == '_' }

  function TrimEnd(s: string): string {
    if s == "" || IsWordChar(s[|s| - 1]) then s else TrimEnd(s[..|s| - 1])
  }

  function TrimStart(s: string): string {
    if s == "" || IsAlphanumeric(s[0]) then s else TrimStart(s[1..])
  }

  function CleanName(name: string): (clean: string)
  {
    var trimmed := TrimStart(TrimEnd(name));
    seq(|trimmed|, i requires 0 <= i < |trimmed| => if IsAlphanumeric(trimmed[i]) then trimmed[i] else '_')
  }

  predicate IsIdentifier(name: string, keywords: set<string>) {
    name != "" && !IsDigit(name[0]) && name !in keywords
  }

  /** The decimal digits of `n`. */
  function Decimal(n: nat): (digits: string)
    ensures digits != "" && forall i :: 0 <= i < |digits| ==> IsDigit(digits[i])
  {
    var digit := ['0' + (n % 10) as char];
    if n < 10 then digit else Decimal(n / 10) + digit
  }

  function Positional(index: nat): string {
    "field_" + Decimal(index) + "_"
  }

  /** The name a column would like to have. */
  function Wanted(index: nat, column: string, keywords: set<string>): string {
    var clean := CleanName(column);
    if IsIdentifier(clean, keywords) then clean else Positional(index)
  }

  function Underscores(k: nat): string {
    seq(k, _ => '_')
  }

  // --------------------------------------------------------------------------- what is promised

  /** The first letter or digit of a column name is at `lo`, its last letter, digit or `_` at `hi`. */
  ghost predicate Bounds(column: string, lo: nat, hi: nat) {
    && lo < |column| && IsAlphanumeric(column[lo]) && (forall i :: 0 <= i < lo ==> !IsAlphanumeric(column[i]))
    && hi < |column| && IsWordChar(column[hi]) && (forall i :: hi < i < |column| ==> !IsWordChar(column[i]))
  }

  /** `clean` is what lies between them, with `_` for whatever is no letter or digit. */
  ghost predicate CleanedBetween(column: string, clean: string, lo: nat, hi: nat) {
    && Bounds(column, lo, hi) && lo <= hi && |clean| == hi - lo + 1
    && forall i :: 0 <= i < |clean| ==> clean[i] == if IsAlphanumeric(column[lo + i]) then column[lo + i] else '_'
  }

  /** And it is nothing, if there is no letter or digit at all. */
  ghost predicate IsCleaned(column: string, clean: string) {
    if forall i :: 0 <= i < |column| ==> !IsAlphanumeric(column[i]) then clean == ""
    else exists lo: nat, hi: nat :: CleanedBetween(column, clean, lo, hi)
  }

  /** What a string of digits stands for. */
  ghost function Number(digits: string): int {
    if digits == "" then 0 else 10 * Number(digits[..|digits| - 1]) + (digits[|digits| - 1] as int - '0' as int)
  }

  /** The decimal form of `n`: digits that stand for it, without a needless zero in front. */
  ghost predicate IsDecimal(n: nat, digits: string) {
    && digits != "" && Number(digits) == n && (digits[0] == '0' ==> n == 0 && |digits| == 1)
    && forall i :: 0 <= i < |digits| ==> '0' <= digits[i] <= '9'
  }

  /** The name a column gets if it is free: its cleaned name, or its position if that starts with
      a digit, is empty or is a reserved word. */
  ghost predicate IsWanted(wanted: string, index: nat, column: string, keywords: set<string>) {
    exists clean :: IsCleaned(column, clean) &&
      if clean != "" && IsLetter(clean[0]) && clean !in keywords then wanted == clean
      else exists digits :: IsDecimal(index, digits) && wanted == "field_" + digits + "_"
  }

  /** Names a namedtuple takes: they start with a letter, go on with letters, digits and `_`. */
  predicate IsFieldName(name: string) {
    name != "" && IsLetter(name[0]) && forall i :: 0 <= i < |name| ==> IsWordChar(name[i])
  }

  /** True of Python's reserved words: none is what a tie or a position is broken with. */
  predicate NoneEndsInUnderscore(keywords: set<string>) {
    forall k :: k in keywords && k != "" && IsLetter(k[0]) ==> k[|k| - 1] != '_'
  }

  /** `name` is what its column wants, or that with as few `_` as make it new. */
  ghost predicate FirstFree(name: string, wanted: string, before: seq<string>, ties: nat) {
    && name == wanted + Underscores(ties) && name !in before
    && forall k :: 0 <= k < ties ==> wanted + Underscores(k) in before
  }

  ghost predicate IsNamed(names: seq<string>, i: nat, columns: seq<string>, keywords: set<string>)
    requires i < |names| <= |columns|
  {
    exists wanted, ties :: IsWanted(wanted, i, columns[i], keywords) && FirstFree(names[i], wanted, names[..i], ties)
  }

  /** `names` are field names for the first of the `columns`. */
  ghost predicate NameTheFirst(names: seq<string>, columns: seq<string>, keywords: set<string>) {
    |names| <= |columns| && forall i :: 0 <= i < |names| ==> IsNamed(names, i, columns, keywords)
  }

  /** `names` are the field names for `columns`. */
  ghost predicate AreFieldNames(names: seq<string>, columns: seq<string>, keywords: set<string>) {
    |names| == |columns| && NameTheFirst(names, columns, keywords)
  }

  const SMALL := "abcdefghijklmnopqrstuvwxyz"
  const CAPITAL := "ABCDEFGHIJKLMNOPQRSTUVWXYZ"

  /** The letters and digits meant are those of ASCII. */
  lemma CharactersAre(c: char)
    ensures IsDigit(c) <==> c in "0123456789"
    ensures IsLetter(c) <==> c in SMALL || c in CAPITAL
    ensures IsAlphanumeric(c) <==> IsDigit(c) || IsLetter(c)
    ensures IsWordChar(c) <==> IsAlphanumeric(c) || c == '_'
  {
    SmallLettersAre(c);
    CapitalLettersAre(c);
    if IsDigit(c) {
      assert "0123456789"[c as int - '0' as int] == c;
    }
  }

  lemma SmallLettersAre(c: char)
    ensures 'a' <= c <= 'z' <==> c in SMALL
  {
    if 'a' <= c <= 'z' {
      assert SMALL[c as int - 'a' as int] == c;
    }
  }

  lemma CapitalLettersAre(c: char)
    ensures 'A' <= c <= 'Z' <==> c in CAPITAL
  {
    if 'A' <= c <= 'Z' {
      assert CAPITAL[c as int - 'A' as int] == c;
    }
  }

  // ------------------------------------------------------------------------ what cleaning gives

  lemma {:induction false} TrimEndKeeps(s: string)
    ensures TrimEnd(s) <= s && (TrimEnd(s) != "" ==> IsWordChar(TrimEnd(s)[|TrimEnd(s)| - 1]))
    ensures forall i :: |TrimEnd(s)| <= i < |s| ==> !IsWordChar(s[i])
  {
    if s != "" && !IsWordChar(s[|s| - 1]) {
      var shorter := s[..|s| - 1];
      TrimEndKeeps(shorter);
      assert forall i :: 0 <= i < |shorter| ==> shorter[i] == s[i];
    }
  }

  lemma {:induction false} TrimStartKeeps(s: string)
    ensures |TrimStart(s)| <= |s| && TrimStart(s) == s[|s| - |TrimStart(s)|..]
    ensures TrimStart(s) != "" ==> IsAlphanumeric(TrimStart(s)[0])
    ensures forall i :: 0 <= i < |s| - |TrimStart(s)| ==> !IsAlphanumeric(s[i])
  {
    if s != "" && !IsAlphanumeric(s[0]) {
      TrimStartKeeps(s[1..]);
      assert forall i :: 0 < i < |s| ==> s[i] == s[1..][i - 1];
    }
  }

  lemma CleanNameIsCleaned(column: string)
    ensures IsCleaned(column, CleanName(column))
  {
    var word := TrimEnd(column);
    var trimmed, clean := TrimStart(word), CleanName(column);
    TrimEndKeeps(column);
    TrimStartKeeps(word);
    assert forall i :: 0 <= i < |word| ==> word[i] == column[i];
    if trimmed != "" {
      var lo, hi := |word| - |trimmed|, |word| - 1;
      assert forall i :: 0 <= i < |trimmed| ==> trimmed[i] == column[lo + i];
      assert column[lo] == trimmed[0];
      assert CleanedBetween(column, clean, lo, hi);
    }
  }

  lemma BoundsAreUnique(column: string, lo: nat, hi: nat, lo': nat, hi': nat)
    requires Bounds(column, lo, hi) && Bounds(column, lo', hi')
    ensures lo == lo' && hi == hi'
  {
  }

  /** There is one way to clean a name. */
  lemma CleanedIsUnique(column: string, a: string, b: string)
    requires IsCleaned(column, a) && IsCleaned(column, b)
    ensures a == b
  {
    if i :| 0 <= i < |column| && IsAlphanumeric(column[i]) {
      var lo: nat, hi: nat :| CleanedBetween(column, a, lo, hi);
      var lo': nat, hi': nat :| CleanedBetween(column, b, lo', hi');
      BoundsAreUnique(column, lo, hi, lo', hi');
    }
  }

  lemma {:induction false} DecimalIsDecimal(n: nat)
    ensures IsDecimal(n, Decimal(n))
  {
    if n >= 10 {
      DecimalIsDecimal(n / 10);
      assert Decimal(n)[..|Decimal(n)| - 1] == Decimal(n / 10);
    } else {
      assert Decimal(n)[..0] == "";
    }
  }

  lemma {:induction false} DecimalIsUnique(n: nat, digits: string)
    requires IsDecimal(n, digits)
    ensures digits == Decimal(n)
  {
    var last := |digits| - 1;
    var front := digits[..last];
    assert digits == front + [digits[last]];
    NumberIsNotNegative(front);
    assert n / 10 == Number(front) && n % 10 == digits[last] as int - '0' as int;
    if front != "" {
      NumberIsPositive(front);
      DecimalIsUnique(n / 10, front);
    }
  }

  lemma {:induction false} NumberIsNotNegative(digits: string)
    requires forall i :: 0 <= i < |digits| ==> '0' <= digits[i] <= '9'
    ensures Number(digits) >= 0
  {
    if digits != "" {
      NumberIsNotNegative(digits[..|digits| - 1]);
    }
  }

  lemma {:induction false} NumberIsPositive(digits: string)
    requires digits != "" && '1' <= digits[0] && forall i :: 0 <= i < |digits| ==> '0' <= digits[i] <= '9'
    ensures Number(digits) > 0
  {
    var front := digits[..|digits| - 1];
    if front == "" {
      assert Number(digits) == digits[0] as int - '0' as int;
    } else {
      NumberIsPositive(front);
    }
  }

  /** The name computed for a column is the one wanted. */
  lemma WantedExactly(wanted: string, index: nat, column: string, keywords: set<string>)
    ensures IsWanted(wanted, index, column, keywords) <==> wanted == Wanted(index, column, keywords)
  {
    var clean := CleanName(column);
    CleanNameIsCleaned(column);
    DecimalIsDecimal(index);
    TrimStartKeeps(TrimEnd(column));
    assert Positional(index) == "field_" + Decimal(index) + "_";
    assert IsIdentifier(clean, keywords) <==> clean != "" && IsLetter(clean[0]) && clean !in keywords;
    if IsWanted(wanted, index, column, keywords) {
      var c :| IsCleaned(column, c) &&
        if c != "" && IsLetter(c[0]) && c !in keywords then wanted == c
        else exists digits :: IsDecimal(index, digits) && wanted == "field_" + digits + "_";
      CleanedIsUnique(column, c, clean);
      if !IsIdentifier(clean, keywords) {
        var digits :| IsDecimal(index, digits) && wanted == "field_" + digits + "_";
        DecimalIsUnique(index, digits);
      }
    }
  }

  lemma TiesOf(names: seq<string>, i: nat, columns: seq<string>, keywords: set<string>) returns (ties: nat)
    requires i < |names| <= |columns| && IsNamed(names, i, columns, keywords)
    ensures FirstFree(names[i], Wanted(i, columns[i], keywords), names[..i], ties)
  {
    var wanted, t: nat :| IsWanted(wanted, i, columns[i], keywords) && FirstFree(names[i], wanted, names[..i], t);
    WantedExactly(wanted, i, columns[i], keywords);
    ties := t;
  }

  lemma NamedWith(names: seq<string>, i: nat, columns: seq<string>, keywords: set<string>, ties: nat)
    requires i < |names| <= |columns| && FirstFree(names[i], Wanted(i, columns[i], keywords), names[..i], ties)
    ensures IsNamed(names, i, columns, keywords)
  {
    WantedExactly(Wanted(i, columns[i], keywords), i, columns[i], keywords);
  }

  // ---------------------------------------------------------------------------- what the names are

  /** What a column wants is a field name. */
  lemma WantedIsFieldName(index: nat, column: string, keywords: set<string>)
    ensures IsFieldName(Wanted(index, column, keywords))
    ensures NoneEndsInUnderscore(keywords) ==> Wanted(index, column, keywords) !in keywords
  {
    TrimStartKeeps(TrimEnd(column));
    var position := Positional(index);
    assert position[0] == 'f' && position[|position| - 1] == '_';
  }

  /** A name made for a column is one a namedtuple takes. */
  lemma FirstFreeIsFieldName(name: string, index: nat, column: string, keywords: set<string>, before: seq<string>,
            ties: nat)
    requires FirstFree(name, Wanted(index, column, keywords), before, ties)
    ensures IsFieldName(name) && (NoneEndsInUnderscore(keywords) ==> name !in keywords)
  {
    WantedIsFieldName(index, column, keywords);
    if ties > 0 {
      assert name[|name| - 1] == '_';
    } else {
      assert name == Wanted(index, column, keywords);
    }
  }

  /** Names that fit their columns are pairwise different, ones a namedtuple takes, and no
      reserved words. */
  lemma FieldNamesAreUsable(names: seq<string>, columns: seq<string>, keywords: set<string>)
    requires NameTheFirst(names, columns, keywords)
    ensures forall i, j :: 0 <= i < j < |names| ==> names[i] != names[j]
    ensures forall i :: 0 <= i < |names| ==> IsFieldName(names[i])
    ensures NoneEndsInUnderscore(keywords) ==> forall i :: 0 <= i < |names| ==> names[i] !in keywords
  {
    forall j | 0 <= j < |names|
      ensures names[j] !in names[..j] && IsFieldName(names[j])
          && (NoneEndsInUnderscore(keywords) ==> names[j] !in keywords)
    {
      var ties := TiesOf(names, j, columns, keywords);
      FirstFreeIsFieldName(names[j], j, columns[j], keywords, names[..j], ties);
    }
    forall i, j | 0 <= i < j < |names| ensures names[i] != names[j] {
      assert names[i] == names[..j][i];
    }
  }

  /** And there is only one way to name the columns. */
  lemma {:induction false} FieldNamesAreUnique(a: seq<string>, b: seq<string>, columns: seq<string>,
            keywords: set<string>)
    requires NameTheFirst(a, columns, keywords) && NameTheFirst(b, columns, keywords) && |a| == |b|
    ensures a == b
  {
    if a != [] {
      var n := |a| - 1;
      ShorterStillFits(a, columns, keywords);
      ShorterStillFits(b, columns, keywords);
      FieldNamesAreUnique(a[..n], b[..n], columns, keywords);
      var s := TiesOf(a, n, columns, keywords);
      var t := TiesOf(b, n, columns, keywords);
      assert s == t;
      assert a == a[..n] + [a[n]] && b == b[..n] + [b[n]];
    }
  }

  lemma ShorterStillFits(names: seq<string>, columns: seq<string>, keywords: set<string>)
    requires NameTheFirst(names, columns, keywords) && names != []
    ensures NameTheFirst(names[..|names| - 1], columns, keywords)
  {
    var fewer := names[..|names| - 1];
    forall i | 0 <= i < |fewer| ensures IsNamed(fewer, i, columns, keywords) {
      assert IsNamed(names, i, columns, keywords);
      assert fewer[..i] == names[..i];
    }
  }

  lemma OneMoreFits(names: seq<string>, name: string, columns: seq<string>, keywords: set<string>, ties: nat)
    requires NameTheFirst(names, columns, keywords) && |names| < |columns|
    requires FirstFree(name, Wanted(|names|, columns[|names|], keywords), names, ties)
    ensures NameTheFirst(names + [name], columns, keywords)
  {
    var more := names + [name];
    forall i | 0 <= i < |more| ensures IsNamed(more, i, columns, keywords) {
      if i < |names| {
        var t := TiesOf(names, i, columns, keywords);
        assert more[..i] == names[..i];
        NamedWith(more, i, columns, keywords, t);
      } else {
        assert more[..i] == names;
        NamedWith(more, i, columns, keywords, ties);
      }
    }
  }

  /** Columns whose cleaned names are usable and different get those names, and no others. */
  lemma CleanedNamesAreKept(names: seq<string>, columns: seq<string>, keywords: set<string>)
    requires |names| == |columns| && forall i :: 0 <= i < |columns| ==> IsCleaned(columns[i], names[i])
    requires forall i :: 0 <= i < |names| ==> IsFieldName(names[i]) && names[i] !in keywords
    requires forall i, j :: 0 <= i < j < |names| ==> names[i] != names[j]
    ensures forall others :: AreFieldNames(others, columns, keywords) <==> others == names
  {
    forall i | 0 <= i < |columns| ensures IsNamed(names, i, columns, keywords) {
      assert IsWanted(names[i], i, columns[i], keywords);
      assert FirstFree(names[i], names[i], names[..i], 0);
    }
    assert AreFieldNames(names, columns, keywords);
    forall others | AreFieldNames(others, columns, keywords) ensures others == names {
      FieldNamesAreUnique(others, names, columns, keywords);
    }
  }

  /** Columns that are usable, different names already keep their names. */
  lemma UsableNamesAreKept(columns: seq<string>, keywords: set<string>)
    requires forall i :: 0 <= i < |columns| ==> IsFieldName(columns[i]) && columns[i] !in keywords
    requires forall i, j :: 0 <= i < j < |columns| ==> columns[i] != columns[j]
    ensures AreFieldNames(columns, columns, keywords)
  {
    forall i | 0 <= i < |columns| ensures IsCleaned(columns[i], columns[i]) {
      assert CleanedBetween(columns[i], columns[i], 0, |columns[i]| - 1);
    }
    CleanedNamesAreKept(columns, columns, keywords);
  }

  /** The column of a conditional statement: `[applied]` is `applied`. */
  lemma AppliedIsApplied(names: seq<string>, keywords: set<string>)
    requires "applied" !in keywords && AreFieldNames(names, ["[applied]"], keywords)
    ensures names == ["applied"]
  {
    assert CleanedBetween("[applied]", "applied", 1, 7);
    CleanedNamesAreKept(["applied"], ["[applied]"], keywords);
  }

  /** Names that would have to be passed over, should `name` be taken. */
  ghost function AtLeastAsLong(seen: set<string>, name: string): set<string> {
    set n | n in seen && |n| >= |name|
  }

  /** There is always a free name. */
  lemma {:induction false} FreeNameExists(wanted: string, before: seq<string>, tried: nat) returns (ties: nat)
    requires forall k :: 0 <= k < tried ==> wanted + Underscores(k) in before
    ensures FirstFree(wanted + Underscores(ties), wanted, before, ties)
    decreases AtLeastAsLong((set n | n in before), wanted + Underscores(tried))
  {
    ties := tried;
    var name, longer := wanted + Underscores(tried), wanted + Underscores(tried + 1);
    if name in before {
      ghost var seen := set n | n in before;
      assert name in AtLeastAsLong(seen, name) && name !in AtLeastAsLong(seen, longer);
      ties := FreeNameExists(wanted, before, tried + 1);
    }
  }

  /** And so there are field names for any columns. */
  lemma {:induction false} FieldNamesExist(columns: seq<string>, keywords: set<string>, count: nat)
            returns (names: seq<string>)
    requires count <= |columns|
    ensures |names| == count && NameTheFirst(names, columns, keywords)
  {
    names := [];
    if count > 0 {
      names := FieldNamesExist(columns, keywords, count - 1);
      var wanted := Wanted(count - 1, columns[count - 1], keywords);
      var ties := FreeNameExists(wanted, names, 0);
      OneMoreFits(names, wanted + Underscores(ties), columns, keywords, ties);
      names := names + [wanted + Underscores(ties)];
    }
  }

  // ---------------------------------------------------------------------- as the program does it

  /** Appends `_` until the name is new. */
  method MakeUnique(wanted: string, seen: set<string>) returns (name: string, renamed: bool, ghost ties: nat)
    ensures name == wanted + Underscores(ties) && name !in seen && renamed == (ties > 0)
    ensures forall k :: 0 <= k < ties ==> wanted + Underscores(k) in seen
  {
    name, renamed, ties := wanted, false, 0;
    while name in seen
      invariant name == wanted + Underscores(ties) && renamed == (ties > 0)
      invariant forall k :: 0 <= k < ties ==> wanted + Underscores(k) in seen
      decreases AtLeastAsLong(seen, name)
    {
      ghost var was := name;
      name, renamed := name + "_", true;
      ties := ties + 1;
      assert name == wanted + Underscores(ties);
      assert was in AtLeastAsLong(seen, was) && was !in AtLeastAsLong(seen, name);
    }
  }

  /** `renamed` says that some column did not get its cleaned name. */
  method ComputeFieldNames(columns: seq<string>, keywords: set<string>) returns (names: seq<string>, renamed: bool)
    ensures AreFieldNames(names, columns, keywords)
    ensures NoneEndsInUnderscore(keywords) ==>
        (renamed <==> exists i :: 0 <= i < |columns| && !IsCleaned(columns[i], names[i]))
  {
    names, renamed := [], false;
    var seen: set<string> := {};
    for index := 0 to |columns|
      invariant |names| == index && NameTheFirst(names, columns, keywords)
      invariant forall n :: n in seen <==> n in names
      invariant NoneEndsInUnderscore(keywords) ==>
          (renamed <==> exists i :: 0 <= i < index && !IsCleaned(columns[i], names[i]))
    {
      var clean := CleanName(columns[index]);
      var wanted := clean;
      if !IsIdentifier(clean, keywords) {
        wanted := Positional(index);
        renamed := true;
      }
      var name, tied, ties := MakeUnique(wanted, seen);
      renamed := renamed || tied;
      OneMoreFits(names, name, columns, keywords, ties);
      RenamedFromClean(name, index, columns[index], keywords, ties);
      seen := seen + {name};
      names := names + [name];
    }
  }

  /** A column keeps its cleaned name only if that is usable and new. */
  lemma RenamedFromClean(name: string, index: nat, column: string, keywords: set<string>, ties: nat)
    requires name == Wanted(index, column, keywords) + Underscores(ties)
    ensures IsIdentifier(CleanName(column), keywords) && ties == 0 ==> IsCleaned(column, name)
    ensures NoneEndsInUnderscore(keywords) && IsCleaned(column, name) ==>
        IsIdentifier(CleanName(column), keywords) && ties == 0
  {
    CleanNameIsCleaned(column);
    if IsCleaned(column, name) {
      CleanedIsUnique(column, name, CleanName(column));
    }
    if ties == 0 {
      assert name == Wanted(index, column, keywords);
    }
    if !IsIdentifier(CleanName(column), keywords) {
      assert name[0] == 'f' && name[|name| - 1] == '_';
    }
  }
}
