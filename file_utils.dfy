/**
 * Choosing a recording to replay (bestman/utils/file_utils.py): parsing
 * the timestamp out of a `multi_sessions_YYYYMMDD_HHMMSS` directory name,
 * ordering the multi-session directories newest first and their
 * `session_*` subdirectories by name, and resolving the operator's typed
 * answers to one entry. The directory listing and the answers to `input()`
 * are parameters; `int()` is the parameter `parseInt`.
 */
module FileUtils {
  import opened Wrappers
  import opened Strings
  import opened Sorting

  // ---------------------------------------------------------------------
  // parse_timestamp_from_name

  const SessionsPrefix := "multi_sessions_"

  /** Length of a match of `multi_sessions_(\d{8})_(\d{6})`. */
  const MatchLength: nat := 30

  predicate IsDigit(c: char)
  {
    '0' <= c <= '9'
  }

  predicate AllDigits(s: string)
  {
    forall k :: 0 <= k < |s| ==> IsDigit(s[k])
  }

  /** Whether the pattern matches the 30 characters of `name` starting at `i`. */
  predicate MatchesAt(name: string, i: nat)
  {
    && i + MatchLength <= |name|
    && name[i..i + 15] == SessionsPrefix
    && AllDigits(name[i + 15..i + 23])
    && name[i + 23] == '_'
    && AllDigits(name[i + 24..i + 30])
  }

  /** `re.search`: the leftmost position at or after `from` where the pattern matches. */
  function FirstMatch(name: string, from: nat): (r: Option<nat>)
    ensures r.Some? ==> from <= r.value && MatchesAt(name, r.value)
    ensures forall j :: from <= j && (r.None? || j < r.value) ==> !MatchesAt(name, j)
    decreases |name| - from
  {
    if from + MatchLength > |name| then None
    else if MatchesAt(name, from) then Some(from)
    else FirstMatch(name, from + 1)
  }

  function DigitValue(c: char): (v: nat)
    requires IsDigit(c)
    ensures v < 10
  {
    (c as int - '0' as int) as nat
  }

  /** The decimal number a run of digits spells. */
  function DigitsValue(s: string): (v: nat)
    requires AllDigits(s)
  {
    if s == [] then 0 else DigitsValue(s[..|s| - 1]) * 10 + DigitValue(s[|s| - 1])
  }

  datatype DateTime = DateTime(year: int, month: int, day: int, hour: int, minute: int, second: int)

  /** `datetime.min`. */
  const MinDateTime := DateTime(1, 1, 1, 0, 0, 0)

  predicate IsLeapYear(y: int)
  {
    y % 4 == 0 && (y % 100 != 0 || y % 400 == 0)
  }

  function DaysInMonth(y: int, m: int): (d: int)
    requires 1 <= m <= 12
    ensures 28 <= d <= 31
    ensures m == 2 ==> (d == 29 <==> IsLeapYear(y))
  {
    if m == 2 then (if IsLeapYear(y) then 29 else 28)
    else if m == 4 || m == 6 || m == 9 || m == 11 then 30
    else 31
  }

  /** What `datetime` accepts: years 1..9999 and a real calendar day and time of day. */
  predicate ValidDateTime(d: DateTime)
  {
    && 1 <= d.year <= 9999
    && 1 <= d.month <= 12
    && 1 <= d.day <= DaysInMonth(d.year, d.month)
    && 0 <= d.hour <= 23
    && 0 <= d.minute <= 59
    && 0 <= d.second <= 59
  }

  /** The date and time the 14 digits of a match at `i` spell, as `%Y%m%d%H%M%S` reads them. */
  function FieldsAt(name: string, i: nat): (d: DateTime)
    requires MatchesAt(name, i)
  {
    assert forall k :: i + 15 <= k < i + 23 ==> IsDigit(name[k]) by {
      forall k | i + 15 <= k < i + 23 ensures IsDigit(name[k]) {
        assert name[k] == name[i + 15..i + 23][k - (i + 15)];
      }
    }
    assert forall k :: i + 24 <= k < i + 30 ==> IsDigit(name[k]) by {
      forall k | i + 24 <= k < i + 30 ensures IsDigit(name[k]) {
        assert name[k] == name[i + 24..i + 30][k - (i + 24)];
      }
    }
    DateTime(DigitsValue(name[i + 15..i + 19]), DigitsValue(name[i + 19..i + 21]), DigitsValue(name[i + 21..i + 23]),
             DigitsValue(name[i + 24..i + 26]), DigitsValue(name[i + 26..i + 28]), DigitsValue(name[i + 28..i + 30]))
  }

  /**
   * `parse_timestamp_from_name`: the first match's date and time, or None
   * when there is no match or that match is not a real date and time
   * (later matches are not tried).
   */
  function ParseTimestamp(name: string): (r: Option<DateTime>)
    ensures r.Some? ==> ValidDateTime(r.value) && FirstMatch(name, 0).Some?
    ensures FirstMatch(name, 0).None? ==> r.None?
  {
    match FirstMatch(name, 0)
    case None => None
    case Some(i) =>
      var d := FieldsAt(name, i);
      if ValidDateTime(d) then Some(d) else None
  }

  /** A match whose digits are not a real date and time gives None, not an error. */
  lemma InvalidFieldsGiveNone(name: string)
    requires FirstMatch(name, 0).Some? && !ValidDateTime(FieldsAt(name, FirstMatch(name, 0).value))
    ensures ParseTimestamp(name) == None
  {
  }

  /** The number 10^w. */
  function Pow10(w: nat): (p: nat)
    ensures p >= 1
  {
    if w == 0 then 1 else 10 * Pow10(w - 1)
  }

  /** `n` written with exactly `w` digits, zero-padded. */
  function Pad(n: nat, w: nat): (s: string)
    ensures |s| == w && AllDigits(s)
  {
    if w == 0 then [] else Pad(n / 10, w - 1) + [(('0' as int) + n % 10) as char]
  }

  lemma {:induction false} PadValue(n: nat, w: nat)
    requires n < Pow10(w)
    ensures DigitsValue(Pad(n, w)) == n
  {
    if w > 0 {
      assert n / 10 < Pow10(w - 1);
      PadValue(n / 10, w - 1);
      var s := Pad(n, w);
      assert s[..|s| - 1] == Pad(n / 10, w - 1);
    }
  }

  /** The directory name the recorder gives a session started at `d`. */
  function SessionsName(d: DateTime): (name: string)
    requires 0 <= d.year && 0 <= d.month && 0 <= d.day && 0 <= d.hour && 0 <= d.minute && 0 <= d.second
    ensures |name| == MatchLength
  {
    SessionsPrefix + Pad(d.year, 4) + Pad(d.month, 2) + Pad(d.day, 2) + "_" + Pad(d.hour, 2) + Pad(d.minute, 2) + Pad(d.second, 2)
  }

  /** Formatting a valid date and time into a directory name and parsing it back gives the same date and time, whatever follows the name. */
  lemma {:induction false} ParseSessionsName(d: DateTime, rest: string)
    requires ValidDateTime(d)
    ensures ParseTimestamp(SessionsName(d) + rest) == Some(d)
  {
    var name := SessionsName(d) + rest;
    var y, mo, da := Pad(d.year, 4), Pad(d.month, 2), Pad(d.day, 2);
    var h, mi, se := Pad(d.hour, 2), Pad(d.minute, 2), Pad(d.second, 2);
    assert name == SessionsPrefix + y + mo + da + "_" + h + mi + se + rest;
    assert name[0..15] == SessionsPrefix;
    assert name[15..19] == y && name[19..21] == mo && name[21..23] == da;
    assert name[15..23] == y + mo + da;
    assert name[24..26] == h && name[26..28] == mi && name[28..30] == se;
    assert name[24..30] == h + mi + se;
    assert AllDigits(name[15..23]) && AllDigits(name[24..30]);
    assert MatchesAt(name, 0);
    assert FirstMatch(name, 0) == Some(0);
    PadValue(d.year, 4);
    PadValue(d.month, 2);
    PadValue(d.day, 2);
    PadValue(d.hour, 2);
    PadValue(d.minute, 2);
    PadValue(d.second, 2);
    assert FieldsAt(name, 0) == d;
  }

  // ---------------------------------------------------------------------
  // Ordering

  /** Chronological order: field by field, as `datetime` compares. */
  predicate Earlier(a: DateTime, b: DateTime)
  {
    if a.year != b.year then a.year < b.year
    else if a.month != b.month then a.month < b.month
    else if a.day != b.day then a.day < b.day
    else if a.hour != b.hour then a.hour < b.hour
    else if a.minute != b.minute then a.minute < b.minute
    else a.second < b.second
  }

  /** `datetime.min` is no later than any valid date and time. */
  lemma MinIsEarliest(d: DateTime)
    requires ValidDateTime(d)
    ensures d == MinDateTime || Earlier(MinDateTime, d)
  {
  }

  /** The sort key `(dt or datetime.min, name)`. */
  datatype SortKey = SortKey(time: DateTime, name: string)

  function KeyOf(name: string): (k: SortKey)
    ensures k.name == name
    ensures k.time == if ParseTimestamp(name).Some? then ParseTimestamp(name).value else MinDateTime
  {
    var dt := ParseTimestamp(name);
    SortKey(if dt.Some? then dt.value else MinDateTime, name)
  }

  /** Tuple order on keys: time first, then name. */
  predicate KeyLess(a: SortKey, b: SortKey)
  {
    Earlier(a.time, b.time) || (a.time == b.time && Less(a.name, b.name))
  }

  lemma KeyLessStrictTotal(a: SortKey, b: SortKey, c: SortKey)
    ensures !KeyLess(a, a)
    ensures a == b || KeyLess(a, b) || KeyLess(b, a)
    ensures KeyLess(a, b) ==> !KeyLess(b, a)
    ensures KeyLess(a, b) && KeyLess(b, c) ==> KeyLess(a, c)
  {
    LessIrreflexive(a.name);
    LessTotal(a.name, b.name);
    if Less(a.name, b.name) { LessAsymmetric(a.name, b.name); }
    if Less(a.name, b.name) && Less(b.name, c.name) { LessTransitive(a.name, b.name, c.name); }
  }

  /** `x` may come before `y` in `sorted(..., key=sort_key, reverse=True)`: its key is not smaller. */
  predicate NewerOrSame(x: string, y: string)
  {
    !KeyLess(KeyOf(x), KeyOf(y))
  }

  lemma NewerOrSameIsTotalPreorder()
    ensures TotalPreorder(NewerOrSame)
  {
    forall a, b ensures NewerOrSame(a, b) || NewerOrSame(b, a) {
      KeyLessStrictTotal(KeyOf(a), KeyOf(b), KeyOf(b));
    }
    forall a, b, c | NewerOrSame(a, b) && NewerOrSame(b, c) ensures NewerOrSame(a, c) {
      var ka, kb, kc := KeyOf(a), KeyOf(b), KeyOf(c);
      KeyLessStrictTotal(ka, kb, kc);
      KeyLessStrictTotal(kb, kc, ka);
      KeyLessStrictTotal(kc, ka, kb);
      KeyLessStrictTotal(ka, kc, kb);
    }
  }

  /** The multi-session directories, newest first. */
  function NewestFirst(dirs: seq<string>): (sorted: seq<string>)
    ensures multiset(sorted) == multiset(dirs) && |sorted| == |dirs|
  {
    var s := Sort(dirs, NewerOrSame);
    assert |s| == |multiset(s)| == |dirs|;
    s
  }

  /**
   * Newest first: keys never increase along the list, so every directory
   * with a parsed timestamp (other than `datetime.min` itself) comes before
   * every directory whose name does not parse.
   */
  lemma {:induction false} NewestFirstOrder(dirs: seq<string>)
    ensures var s := NewestFirst(dirs);
      && (forall i, j :: 0 <= i < j < |s| ==> !KeyLess(KeyOf(s[i]), KeyOf(s[j])))
      && (forall i, j :: 0 <= i < j < |s| && ParseTimestamp(s[j]).Some? && ParseTimestamp(s[j]).value != MinDateTime
            ==> ParseTimestamp(s[i]).Some?)
  {
    NewerOrSameIsTotalPreorder();
    var s := NewestFirst(dirs);
    forall i, j | 0 <= i < j < |s| && ParseTimestamp(s[j]).Some? && ParseTimestamp(s[j]).value != MinDateTime
      ensures ParseTimestamp(s[i]).Some?
    {
      assert NewerOrSame(s[i], s[j]);
      MinIsEarliest(ParseTimestamp(s[j]).value);
    }
  }

  /** The `session_*` subdirectories by name, ascending. */
  function ByName(dirs: seq<string>): (sorted: seq<string>)
    ensures multiset(sorted) == multiset(dirs) && |sorted| == |dirs|
  {
    var s := Sort(dirs, LessEq);
    assert |s| == |multiset(s)| == |dirs|;
    s
  }

  lemma {:induction false} ByNameOrder(dirs: seq<string>)
    ensures var s := ByName(dirs); forall i, j :: 0 <= i < j < |s| ==> LessEq(s[i], s[j])
  {
    LessEqTotalOrder();
    assert TotalPreorder(LessEq);
  }

  // ---------------------------------------------------------------------
  // Directory listings

  /** One entry of a directory listing. */
  datatype Entry = Entry(name: string, isDir: bool)

  predicate StartsWith(s: string, prefix: string)
  {
    |prefix| <= |s| && s[..|prefix|] == prefix
  }

  /** `[p for p in base.glob(prefix + "*") if p.is_dir()]`, as names. */
  function DirsWithPrefix(entries: seq<Entry>, prefix: string): (names: seq<string>)
    ensures forall e :: e in entries && e.isDir && StartsWith(e.name, prefix) ==> e.name in names
    ensures forall n :: n in names ==> StartsWith(n, prefix) && Entry(n, true) in entries
  {
    if entries == [] then []
    else
      var rest := DirsWithPrefix(entries[1..], prefix);
      assert forall e :: e in entries[1..] ==> e in entries;
      if entries[0].isDir && StartsWith(entries[0].name, prefix) then [entries[0].name] + rest else rest
  }

  // ---------------------------------------------------------------------
  // Choosing an entry

  datatype SelectError =
    | NotFound      // FileNotFoundError: nothing to choose from
    | EndOfInput    // EOFError: input ran out before a valid choice

  /**
   * What one answer selects among `n` entries: an empty answer the
   * default, a number k in 1..n entry k − 1; anything else nothing, and
   * the question is asked again.
   */
  function ResolveChoice(answer: string, n: nat, defaultIndex: nat, parseInt: string -> Option<int>): (r: Option<nat>)
    requires defaultIndex < n
    ensures r.Some? ==> r.value < n
    ensures Strip(answer) == [] ==> r == Some(defaultIndex)
    ensures Strip(answer) != [] ==>
              (r.Some? <==> parseInt(Strip(answer)).Some? && 1 <= parseInt(Strip(answer)).value <= n)
    ensures Strip(answer) != [] && r.Some? ==> r.value + 1 == parseInt(Strip(answer)).value
  {
    var choice := Strip(answer);
    if choice == [] then Some(defaultIndex)
    else
      match parseInt(choice)
      case None => None
      case Some(k) => if 1 <= k <= n then Some(k - 1) else None
  }

  /** The first of the values `f` gives along `xs` that is something, if any. */
  function FirstSome<T>(xs: seq<T>, f: T -> Option<nat>): Option<nat>
  {
    if xs == [] then None
    else if f(xs[0]).Some? then f(xs[0]) else FirstSome(xs[1..], f)
  }

  lemma {:induction false} FirstSomeNone<T>(xs: seq<T>, f: T -> Option<nat>)
    ensures FirstSome(xs, f).None? <==> forall k :: 0 <= k < |xs| ==> f(xs[k]).None?
  {
    if xs != [] {
      FirstSomeNone(xs[1..], f);
      assert forall k :: 0 < k < |xs| ==> xs[k] == xs[1..][k - 1];
    }
  }

  lemma {:induction false} FirstSomeAt<T>(xs: seq<T>, f: T -> Option<nat>) returns (k: nat)
    requires FirstSome(xs, f).Some?
    ensures k < |xs| && f(xs[k]) == FirstSome(xs, f)
    ensures forall j :: 0 <= j < k ==> f(xs[j]).None?
  {
    if f(xs[0]).Some? {
      k := 0;
    } else {
      var i := FirstSomeAt(xs[1..], f);
      k := i + 1;
      assert xs[k] == xs[1..][i];
      forall j | 0 < j < k ensures f(xs[j]).None? {
        assert xs[j] == xs[1..][j - 1];
      }
    }
  }

  /** One answer's resolution, as a function of the answer. */
  function Resolver(n: nat, defaultIndex: nat, parseInt: string -> Option<int>): string -> Option<nat>
    requires defaultIndex < n
  {
    answer => ResolveChoice(answer, n, defaultIndex, parseInt)
  }

  lemma {:induction false} FirstSomeBound<T>(xs: seq<T>, f: T -> Option<nat>, n: nat)
    requires forall x :: f(x).Some? ==> f(x).value < n
    ensures FirstSome(xs, f).Some? ==> FirstSome(xs, f).value < n
  {
    if xs != [] {
      FirstSomeBound(xs[1..], f, n);
    }
  }

  /** The index the first answer that resolves selects, if any does. */
  function FirstChoice(answers: seq<string>, n: nat, defaultIndex: nat, parseInt: string -> Option<int>): (r: Option<nat>)
    requires defaultIndex < n
    ensures r.Some? ==> r.value < n
  {
    FirstSomeBound(answers, Resolver(n, defaultIndex, parseInt), n);
    FirstSome(answers, Resolver(n, defaultIndex, parseInt))
  }

  /** The choice is made by the first answer that resolves; with none, input runs out. */
  lemma FirstChoiceIsFirst(answers: seq<string>, n: nat, defaultIndex: nat, parseInt: string -> Option<int>)
    requires defaultIndex < n
    ensures FirstChoice(answers, n, defaultIndex, parseInt).None? <==>
              forall k :: 0 <= k < |answers| ==> ResolveChoice(answers[k], n, defaultIndex, parseInt).None?
    ensures FirstChoice(answers, n, defaultIndex, parseInt).Some? ==>
              exists k :: 0 <= k < |answers|
                && ResolveChoice(answers[k], n, defaultIndex, parseInt) == FirstChoice(answers, n, defaultIndex, parseInt)
                && forall j :: 0 <= j < k ==> ResolveChoice(answers[j], n, defaultIndex, parseInt).None?
  {
    var f := Resolver(n, defaultIndex, parseInt);
    FirstSomeNone(answers, f);
    if FirstChoice(answers, n, defaultIndex, parseInt).Some? {
      var k := FirstSomeAt(answers, f);
    }
  }

  /** The `while True: input()` loop: asks until an answer resolves. */
  method Ask(answers: seq<string>, n: nat, defaultIndex: nat, parseInt: string -> Option<int>) returns (r: Result<nat, SelectError>)
    requires defaultIndex < n
    ensures r.Ok? <==> FirstChoice(answers, n, defaultIndex, parseInt).Some?
    ensures r.Ok? ==> r.value == FirstChoice(answers, n, defaultIndex, parseInt).value && r.value < n
    ensures r.Err? ==> r.error == EndOfInput
  {
    var i := 0;
    while i < |answers|
      invariant 0 <= i <= |answers|
      invariant FirstChoice(answers, n, defaultIndex, parseInt) == FirstSome(answers[i..], Resolver(n, defaultIndex, parseInt))
    {
      var c := ResolveChoice(answers[i], n, defaultIndex, parseInt);
      if c.Some? {
        return Ok(c.value);
      }
      assert answers[i..][1..] == answers[i + 1..];
      i := i + 1;
    }
    r := Err(EndOfInput);
  }

  /**
   * `select_multi_sessions_dir`: the `multi_sessions*` directories newest
   * first; an empty answer takes the newest.
   */
  method SelectMultiSessionsDir(entries: seq<Entry>, answers: seq<string>, parseInt: string -> Option<int>)
    returns (r: Result<string, SelectError>)
    ensures var dirs := DirsWithPrefix(entries, "multi_sessions");
      && (dirs == [] ==> r == Err(NotFound))
      && (dirs != [] ==>
            match FirstChoice(answers, |dirs|, 0, parseInt)
            case None => r == Err(EndOfInput)
            case Some(k) => r == Ok(NewestFirst(dirs)[k]))
  {
    var dirs := DirsWithPrefix(entries, "multi_sessions");
    if dirs == [] {
      return Err(NotFound);
    }
    var sorted := NewestFirst(dirs);
    var choice := Ask(answers, |sorted|, 0, parseInt);
    if choice.Err? {
      return Err(choice.error);
    }
    r := Ok(sorted[choice.value]);
  }

  /**
   * `select_session_subdir`: the `session_*` subdirectories in name order;
   * an empty answer takes the last one.
   */
  method SelectSessionSubdir(entries: seq<Entry>, answers: seq<string>, parseInt: string -> Option<int>)
    returns (r: Result<string, SelectError>)
    ensures var dirs := DirsWithPrefix(entries, "session_");
      && (dirs == [] ==> r == Err(NotFound))
      && (dirs != [] ==>
            match FirstChoice(answers, |dirs|, |dirs| - 1, parseInt)
            case None => r == Err(EndOfInput)
            case Some(k) => r == Ok(ByName(dirs)[k]))
  {
    var dirs := DirsWithPrefix(entries, "session_");
    if dirs == [] {
      return Err(NotFound);
    }
    var sorted := ByName(dirs);
    var choice := Ask(answers, |sorted|, |sorted| - 1, parseInt);
    if choice.Err? {
      return Err(choice.error);
    }
    r := Ok(sorted[choice.value]);
  }

  /** The default subdirectory is the one whose name sorts last. */
  lemma DefaultSessionIsLast(dirs: seq<string>)
    requires dirs != []
    ensures var s := ByName(dirs); |s| == |dirs| && forall d :: d in dirs ==> LessEq(d, s[|s| - 1])
  {
    var s := ByName(dirs);
    assert |s| == |multiset(s)| == |dirs|;
    ByNameOrder(dirs);
    forall d | d in dirs ensures LessEq(d, s[|s| - 1]) {
      assert d in multiset(s);
      var i :| 0 <= i < |s| && s[i] == d;
      if i < |s| - 1 {
      } else {
        LessIrreflexive(d);
      }
    }
  }
}
