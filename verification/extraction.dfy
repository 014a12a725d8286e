/** Finding the membership code on the page the enrollment form leads to:
    a bounded wait for a confirmation signal, then a tier of element
    queries, then a tier of five fixed regular expressions over the page
    source with calendar years filtered out. */
module Extraction {
  import opened Common

  const PollLimit: nat := 20

  /** What one polling round reads: the current URL and the page source;
      `None` when reading it raised. */
  datatype PollView = PollView(url: Option<string>, source: Option<string>)

  predicate PageSignal(source: string) {
    var page := Lower(source);
    Contains(page, "confirmation") || Contains(page, "member")
    || Contains(page, "congratulations") || Contains(page, "bienvenido")
  }

  /** A round ends the wait when the URL mentions a confirmation or success,
      or the page mentions one of four keywords. The source is read only
      when the URL was read and carries no marker. */
  predicate ConfirmationSignal(v: PollView) {
    v.url.Some?
    && (Contains(Lower(v.url.value), "confirmation") || Contains(Lower(v.url.value), "success")
        || (v.source.Some? && PageSignal(v.source.value)))
  }

  /** The polling loop. Returns the number of one-second pauses taken. */
  method WaitForConfirmation(poll: nat -> PollView) returns (waited: nat)
    ensures waited <= PollLimit
    ensures forall i :: 0 <= i < waited ==> !ConfirmationSignal(poll(i))
    ensures waited < PollLimit ==> ConfirmationSignal(poll(waited))
  {
    waited := 0;
    while waited < PollLimit
      invariant waited <= PollLimit
      invariant forall i :: 0 <= i < waited ==> !ConfirmationSignal(poll(i))
    {
      if ConfirmationSignal(poll(waited)) {
        return;
      }
      waited := waited + 1;
    }
  }

  // ----- tier 1: element queries -----

  const CodeSelectors: seq<string> := [
    "//strong[contains(text(), 'MB')]",
    "//strong[contains(text(), 'member')]//text()[string-length(.) >= 8]",
    "//strong[string-length(text()) >= 8 and string-length(text()) <= 15]",
    "//*[contains(text(), 'Member')]/following-sibling::*//strong",
    "//div[contains(@class, 'confirmation')]//strong",
    "//div[contains(@class, 'success')]//strong",
    "//span[string-length(text()) >= 8 and string-length(text()) <= 15]",
    "//*[contains(text(), 'number')]/following-sibling::*",
    "//*[contains(text(), 'c\U{F3}digo')]/following-sibling::*",
    "//h1//text()[string-length(.) >= 8]",
    "//h2//text()[string-length(.) >= 8]",
    "//p//strong[string-length(text()) >= 8]"
  ]

  predicate HasDigit(s: string) {
    exists i :: 0 <= i < |s| && IsDigit(s[i])
  }

  /** An element text is taken as the code when, stripped, it is at least
      six characters long and holds a digit. */
  predicate Plausible(code: string) {
    code != [] && |code| >= 6 && HasDigit(code)
  }

  /** Text `i` is read and plausible once stripped, and every text before
      it was read and is not. */
  predicate FirstPlausibleAt(texts: seq<Option<string>>, i: int) {
    0 <= i < |texts| && texts[i].Some? && Plausible(Strip(texts[i].value))
    && forall j :: 0 <= j < i ==> texts[j].Some? && !Plausible(Strip(texts[j].value))
  }

  /** The texts of the elements one selector found, in document order;
      `None` where reading the text raised, which abandons the selector.
      The result is the first plausible stripped text, provided no text
      before it was unreadable. */
  function ScanTexts(texts: seq<Option<string>>): (r: Option<string>)
    ensures r.Some? ==> Plausible(r.value)
    ensures r.Some? ==> exists i :: FirstPlausibleAt(texts, i) && r.value == Strip(texts[i].value)
    ensures r.None? ==> forall i :: !FirstPlausibleAt(texts, i)
    decreases |texts|
  {
    if texts == [] then None
    else
      match texts[0]
      case None => None
      case Some(t) =>
        if Plausible(Strip(t)) then
          assert FirstPlausibleAt(texts, 0);
          Some(Strip(t))
        else
          var r := ScanTexts(texts[1..]);
          if r.Some? then
            ScanTextsShift(texts, r);
            r
          else
            ScanTextsShiftNone(texts);
            r
  }

  /** Skipping a first text that is read but not plausible keeps the
      first plausible text. */
  lemma ScanTextsShift(texts: seq<Option<string>>, r: Option<string>)
    requires texts != [] && texts[0].Some? && !Plausible(Strip(texts[0].value)) && r.Some?
    requires exists i :: FirstPlausibleAt(texts[1..], i) && r.value == Strip(texts[1..][i].value)
    ensures exists i :: FirstPlausibleAt(texts, i) && r.value == Strip(texts[i].value)
  {
    var i :| FirstPlausibleAt(texts[1..], i) && r.value == Strip(texts[1..][i].value);
    assert texts[i + 1] == texts[1..][i];
    forall j | 1 <= j <= i
      ensures texts[j].Some? && !Plausible(Strip(texts[j].value))
    {
      assert texts[j] == texts[1..][j - 1];
    }
    assert FirstPlausibleAt(texts, i + 1);
  }

  /** ... and keeps there being none. */
  lemma ScanTextsShiftNone(texts: seq<Option<string>>)
    requires texts != [] && texts[0].Some? && !Plausible(Strip(texts[0].value))
    requires forall i :: !FirstPlausibleAt(texts[1..], i)
    ensures forall i :: !FirstPlausibleAt(texts, i)
  {
    forall i ensures !FirstPlausibleAt(texts, i) {
      if 1 <= i {
        assert FirstPlausibleAt(texts, i) ==> FirstPlausibleAt(texts[1..], i - 1);
      }
    }
  }

  /** The code one selector yields: nothing when its query raised, and
      otherwise what `ScanTexts` finds among the texts. */
  function Hit(texts: Option<seq<Option<string>>>): (r: Option<string>)
    ensures r.Some? ==> Plausible(r.value)
    ensures texts.None? ==> r.None?
    ensures texts.Some? ==> r == ScanTexts(texts.value)
  {
    match texts case None => None case Some(ts) => ScanTexts(ts)
  }

  /** Selector `k` yields a code and no selector before it does. */
  predicate FirstHitAt(selectors: seq<string>, elements: string -> Option<seq<Option<string>>>, k: int) {
    0 <= k < |selectors| && Hit(elements(selectors[k])).Some?
    && forall j :: 0 <= j < k ==> Hit(elements(selectors[j])).None?
  }

  /** Selectors in order; a selector whose query raised is skipped. The
      code is the one the first selector with a hit yields. */
  function ElementTier(selectors: seq<string>, elements: string -> Option<seq<Option<string>>>): (r: Option<string>)
    ensures r.Some? ==> Plausible(r.value)
    ensures r.Some? ==> exists k :: FirstHitAt(selectors, elements, k) && r == Hit(elements(selectors[k]))
    ensures r.None? <==> forall k :: 0 <= k < |selectors| ==> Hit(elements(selectors[k])).None?
    decreases |selectors|
  {
    if selectors == [] then None
    else
      var here := Hit(elements(selectors[0]));
      if here.Some? then
        assert FirstHitAt(selectors, elements, 0);
        here
      else
        var r := ElementTier(selectors[1..], elements);
        if r.Some? then
          ElementTierShift(selectors, elements, r);
          r
        else
          NoneShift(selectors, s => Hit(elements(s)).Some?);
          r
  }

  /** A property that neither the first element nor any later one has,
      no element has. */
  lemma NoneShift(xs: seq<string>, p: string -> bool)
    requires xs != [] && !p(xs[0])
    requires forall k :: 0 <= k < |xs[1..]| ==> !p(xs[1..][k])
    ensures forall k :: 0 <= k < |xs| ==> !p(xs[k])
  {
    forall k | 1 <= k < |xs|
      ensures !p(xs[k])
    {
      assert xs[k] == xs[1..][k - 1];
    }
  }

  /** Skipping a first selector without a hit. */
  lemma ElementTierShift(selectors: seq<string>, elements: string -> Option<seq<Option<string>>>, r: Option<string>)
    requires selectors != [] && Hit(elements(selectors[0])).None? && r.Some?
    requires exists k :: FirstHitAt(selectors[1..], elements, k) && r == Hit(elements(selectors[1..][k]))
    ensures exists k :: FirstHitAt(selectors, elements, k) && r == Hit(elements(selectors[k]))
  {
    var k :| FirstHitAt(selectors[1..], elements, k) && r == Hit(elements(selectors[1..][k]));
    assert selectors[k + 1] == selectors[1..][k];
    forall j | 1 <= j <= k
      ensures Hit(elements(selectors[j])).None?
    {
      assert selectors[j] == selectors[1..][j - 1];
    }
    assert FirstHitAt(selectors, elements, k + 1);
  }

  method ScanElementTexts(texts: seq<Option<string>>) returns (r: Option<string>)
    ensures r == ScanTexts(texts)
  {
    var i := 0;
    while i < |texts|
      invariant 0 <= i <= |texts|
      invariant ScanTexts(texts[i..]) == ScanTexts(texts)
    {
      if texts[i].None? {
        return None;
      }
      var code := Strip(texts[i].value);
      if Plausible(code) {
        return Some(code);
      }
      assert texts[i..][1..] == texts[i + 1..];
      i := i + 1;
    }
    return None;
  }

  /** The tier from selector `k` on is selector `k`'s code, or else the
      tier from `k + 1` on. */
  lemma ElementTierStep(selectors: seq<string>, elements: string -> Option<seq<Option<string>>>, k: nat)
    requires k < |selectors|
    ensures ElementTier(selectors[k..], elements)
            == if Hit(elements(selectors[k])).Some? then Hit(elements(selectors[k]))
               else ElementTier(selectors[k + 1..], elements)
  {
    assert selectors[k..][0] == selectors[k];
    assert selectors[k..][1..] == selectors[k + 1..];
  }

  method SearchElements(selectors: seq<string>, elements: string -> Option<seq<Option<string>>>) returns (r: Option<string>)
    ensures r == ElementTier(selectors, elements)
  {
    var k := 0;
    while k < |selectors|
      invariant 0 <= k <= |selectors|
      invariant ElementTier(selectors[k..], elements) == ElementTier(selectors, elements)
    {
      var found := elements(selectors[k]);
      var code := None;
      if found.Some? {
        code := ScanElementTexts(found.value);
      }
      ElementTierStep(selectors, elements, k);
      if code.Some? {
        return code;
      }
      k := k + 1;
    }
    assert selectors[k..] == [];
    return None;
  }

  // ----- tier 2: regular expressions over the page source -----

  /** The five patterns, in the order they are tried:
      `MB\d{8,12}`, `\b\d{10,12}\b`, `\b\d{9}\b`, `[A-Z]{2}\d{8,10}`, `\b\d{8}\b`. */
  datatype Pattern = MbCode | Digits10To12 | Digits9 | LettersCode | Digits8

  const Patterns: seq<Pattern> := [MbCode, Digits10To12, Digits9, LettersCode, Digits8]

  /** `\w` for the characters the model distinguishes. */
  predicate IsWordChar(c: char) {
    IsDigit(c) || ('a' <= c <= 'z') || ('A' <= c <= 'Z') || c == '_'
  }

  /** Number of consecutive digits starting at `p`. */
  function DigitRun(s: string, p: nat): (n: nat)
    requires p <= |s|
    ensures p + n <= |s|
    ensures forall i :: p <= i < p + n ==> IsDigit(s[i])
    ensures p + n < |s| ==> !IsDigit(s[p + n])
    decreases |s| - p
  {
    if p < |s| && IsDigit(s[p]) then 1 + DigitRun(s, p + 1) else 0
  }

  function Min(a: nat, b: nat): nat {
    if a <= b then a else b
  }

  /** `\b` before a word character at `p`. */
  predicate BoundaryBefore(s: string, p: nat)
    requires p <= |s|
  {
    p == 0 || !IsWordChar(s[p - 1])
  }

  /** `\b` after a word character ending at `q`. */
  predicate BoundaryAfter(s: string, q: nat)
    requires q <= |s|
  {
    q == |s| || !IsWordChar(s[q])
  }

  /** `\b\d{lo,hi}\b` at `p`: backtracking cannot help inside a run of
      digits, so it matches exactly a whole run of `lo` to `hi` digits
      with non-word characters (or the text's ends) on both sides. */
  function BoundedDigitsAt(s: string, p: nat, lo: nat, hi: nat): nat
    requires p <= |s|
  {
    var d := DigitRun(s, p);
    if d > 0 && BoundaryBefore(s, p) && lo <= d <= hi && BoundaryAfter(s, p + d) then d else 0
  }

  /** `[A-Z]{2}` when `letters`, otherwise the literal `MB`. */
  predicate LeadOk(letters: bool, a: char, b: char) {
    if letters then IsUpper(a) && IsUpper(b) else a == 'M' && b == 'B'
  }

  /** Two leading characters checked by `LeadOk`, then a greedy run of
      at least 8 and at most `hi` digits. */
  function PrefixedDigitsAt(s: string, p: nat, letters: bool, hi: nat): nat
    requires p <= |s|
  {
    if p + 2 <= |s| && LeadOk(letters, s[p], s[p + 1]) then
      var d := DigitRun(s, p + 2);
      if d >= 8 then 2 + Min(d, hi) else 0
    else 0
  }

  predicate EndsWithEightDigits(m: string) {
    |m| >= 8 && forall i :: |m| - 8 <= i < |m| ==> IsDigit(m[i])
  }

  /** Every character of `s` from `a` up to `b` is a digit. */
  predicate DigitsIn(s: string, a: nat, b: nat) {
    forall i :: a <= i < b && i < |s| ==> IsDigit(s[i])
  }

  /** `\b\d{lo,hi}\b` matching the `n` characters at `p`: `lo` to `hi`
      digits with no word character just before or just after them. */
  predicate BoundedMatch(s: string, p: nat, n: nat, lo: nat, hi: nat)
    requires p + n <= |s|
  {
    0 < lo <= n <= hi && DigitsIn(s, p, p + n) && BoundaryBefore(s, p) && BoundaryAfter(s, p + n)
  }

  /** Two leading characters checked by `LeadOk` and then 8 to `hi` digits,
      taken greedily: fewer than `hi` digits only when no digit follows. */
  predicate PrefixedMatch(s: string, p: nat, n: nat, letters: bool, hi: nat)
    requires p + n <= |s|
  {
    10 <= n <= 2 + hi && LeadOk(letters, s[p], s[p + 1]) && DigitsIn(s, p + 2, p + n)
    && (n == 2 + hi || p + n == |s| || !IsDigit(s[p + n]))
  }

  /** What the regular expression engine accepts: pattern `pat` matches
      exactly the `n` characters of `s` from `p`. */
  predicate IsMatch(pat: Pattern, s: string, p: nat, n: nat) {
    p + n <= |s| &&
    match pat
    case MbCode => PrefixedMatch(s, p, n, false, 12)
    case Digits10To12 => BoundedMatch(s, p, n, 10, 12)
    case Digits9 => BoundedMatch(s, p, n, 9, 9)
    case LettersCode => PrefixedMatch(s, p, n, true, 10)
    case Digits8 => BoundedMatch(s, p, n, 8, 8)
  }

  /** A whole run of digits is the only candidate for a bounded match. */
  lemma BoundedDigitsExact(s: string, p: nat, lo: nat, hi: nat, m: nat)
    requires p + m <= |s| && BoundedMatch(s, p, m, lo, hi)
    ensures BoundedDigitsAt(s, p, lo, hi) == m
  {
    DigitRunSuffix(s, p, p + m);
    DigitRunStops(s, p, p + m);
  }

  /** The greedy digit run is the only candidate for a prefixed match. */
  lemma PrefixedDigitsExact(s: string, p: nat, letters: bool, hi: nat, m: nat)
    requires 8 <= hi && p + m <= |s| && PrefixedMatch(s, p, m, letters, hi)
    ensures PrefixedDigitsAt(s, p, letters, hi) == m
  {
    DigitRunSuffix(s, p + 2, p + m);
    if m < 2 + hi {
      DigitRunStops(s, p + 2, p + m);
    }
  }

  /** A run of digits ends at the first character that is not one. */
  lemma {:induction false} DigitRunStops(s: string, p: nat, q: nat)
    requires p <= q <= |s| && (q == |s| || !IsDigit(s[q]))
    ensures DigitRun(s, p) <= q - p
    decreases q - p
  {
    if p < q && IsDigit(s[p]) {
      DigitRunStops(s, p + 1, q);
    }
  }

  /** Length of the match of `pat` starting at `p`, or 0 when there is none:
      the pattern matches there exactly when the length is positive, and
      then with exactly that length. */
  function MatchAt(pat: Pattern, s: string, p: nat): (n: nat)
    requires p <= |s|
    ensures p + n <= |s|
    ensures n > 0 ==> IsMatch(pat, s, p, n)
    ensures forall m :: IsMatch(pat, s, p, m) ==> m == n
    ensures n > 0 ==> EndsWithEightDigits(s[p..p + n])
    ensures n > 0 ==> DigitRun(s, p + n - 8) >= 8
  {
    var n := match pat
      case MbCode => PrefixedDigitsAt(s, p, false, 12)
      case Digits10To12 => BoundedDigitsAt(s, p, 10, 12)
      case Digits9 => BoundedDigitsAt(s, p, 9, 9)
      case LettersCode => PrefixedDigitsAt(s, p, true, 10)
      case Digits8 => BoundedDigitsAt(s, p, 8, 8);
    MatchAtExact(pat, s, p, n);
    if n == 0 then 0
    else
      DigitRunSuffix(s, p + n - 8, p + n);
      n
  }

  /** The match the scanners compute is the one the pattern accepts. */
  lemma MatchAtExact(pat: Pattern, s: string, p: nat, n: nat)
    requires p <= |s|
    requires n == match pat
      case MbCode => PrefixedDigitsAt(s, p, false, 12)
      case Digits10To12 => BoundedDigitsAt(s, p, 10, 12)
      case Digits9 => BoundedDigitsAt(s, p, 9, 9)
      case LettersCode => PrefixedDigitsAt(s, p, true, 10)
      case Digits8 => BoundedDigitsAt(s, p, 8, 8)
    ensures p + n <= |s|
    ensures n > 0 ==> IsMatch(pat, s, p, n)
    ensures forall m :: IsMatch(pat, s, p, m) ==> m == n
  {
    forall m | IsMatch(pat, s, p, m)
      ensures m == n
    {
      match pat
      case MbCode => PrefixedDigitsExact(s, p, false, 12, m);
      case Digits10To12 => BoundedDigitsExact(s, p, 10, 12, m);
      case Digits9 => BoundedDigitsExact(s, p, 9, 9, m);
      case LettersCode => PrefixedDigitsExact(s, p, true, 10, m);
      case Digits8 => BoundedDigitsExact(s, p, 8, 8, m);
    }
  }

  lemma {:induction false} DigitRunSuffix(s: string, p: nat, q: nat)
    requires p <= q <= |s|
    requires forall i :: p <= i < q ==> IsDigit(s[i])
    ensures DigitRun(s, p) >= q - p
    decreases q - p
  {
    if p < q {
      DigitRunSuffix(s, p + 1, q);
    }
  }

  /** `lens` gives, for each position of `s`, the length of a match that
      fits in `s` (0 where there is none). */
  predicate Fits(s: string, lens: seq<nat>) {
    |lens| == |s| && forall q :: 0 <= q < |s| ==> q + lens[q] <= |s|
  }

  /** The scan of `re.findall` from `p`, given the length of the match at
      each position: a match is taken and scanning resumes after it;
      otherwise scanning moves one character on. Nothing is found exactly
      when there is no match from `p` on. */
  function Collect(s: string, lens: seq<nat>, p: nat): (ms: seq<string>)
    requires Fits(s, lens) && p <= |s|
    ensures ms == [] <==> forall q :: p <= q < |s| ==> lens[q] == 0
    decreases |s| - p
  {
    if p == |s| then []
    else if lens[p] > 0 then
      [s[p..p + lens[p]]] + Collect(s, lens, p + lens[p])
    else
      Collect(s, lens, p + 1)
  }

  /** Scanning over positions without a match finds nothing there. */
  lemma {:induction false} CollectSkip(s: string, lens: seq<nat>, p: nat, q: nat)
    requires Fits(s, lens) && p <= q <= |s|
    requires forall j :: p <= j < q ==> lens[j] == 0
    ensures Collect(s, lens, p) == Collect(s, lens, q)
    decreases q - p
  {
    if p < q {
      CollectSkip(s, lens, p + 1, q);
    }
  }

  /** With the leftmost match from `p` on at `q`, the strings found are that
      match and then the strings found from its end on: every match is
      found, left to right, without overlaps. */
  lemma CollectLeftmost(s: string, lens: seq<nat>, p: nat, q: nat)
    requires Fits(s, lens) && p <= q < |s| && lens[q] > 0
    requires forall j :: p <= j < q ==> lens[j] == 0
    ensures Collect(s, lens, p) == [s[q..q + lens[q]]] + Collect(s, lens, q + lens[q])
  {
    CollectSkip(s, lens, p, q);
  }

  /** The length of the match of `pat` at every position of `s`. */
  function MatchLengths(pat: Pattern, s: string): (lens: seq<nat>)
    ensures Fits(s, lens)
  {
    var lens := Tabulate(LengthAt(pat, s), 0, |s|);
    forall q | 0 <= q < |s|
      ensures q + lens[q] <= |s|
    {
      TabulateAt(LengthAt(pat, s), 0, |s|, q);
    }
    lens
  }

  /** The match length as a function of the position. */
  function LengthAt(pat: Pattern, s: string): nat -> nat {
    (q: nat) => if q < |s| then MatchAt(pat, s, q) else 0
  }

  /** `[f(p), ..., f(n - 1)]`. */
  function Tabulate(f: nat -> nat, p: nat, n: nat): (r: seq<nat>)
    ensures |r| == if p <= n then n - p else 0
    decreases n - p
  {
    if p >= n then [] else [f(p)] + Tabulate(f, p + 1, n)
  }

  lemma {:induction false} TabulateAt(f: nat -> nat, p: nat, n: nat, q: nat)
    requires p <= q < n
    ensures Tabulate(f, p, n)[q - p] == f(q)
    decreases q - p
  {
    var rest := Tabulate(f, p + 1, n);
    assert Tabulate(f, p, n) == [f(p)] + rest;
    if p < q {
      TabulateAt(f, p + 1, n, q);
      assert rest[q - (p + 1)] == f(q);
    }
  }

  lemma MatchLengthsAt(pat: Pattern, s: string, q: nat)
    requires q < |s|
    ensures MatchLengths(pat, s)[q] == MatchAt(pat, s, q)
  {
    TabulateAt(LengthAt(pat, s), 0, |s|, q);
  }

  /** `re.findall(pattern, s)`: every non-overlapping match, left to right
      (`CollectLeftmost`, `FindAllEmpty`). Every string found occurs in `s`
      and ends in eight digits. */
  function FindAll(pat: Pattern, s: string): (ms: seq<string>)
    ensures forall k :: 0 <= k < |ms| ==> EndsWithEightDigits(ms[k]) && Contains(s, ms[k])
  {
    var lens := MatchLengths(pat, s);
    var ms := Collect(s, lens, 0);
    LengthsCodeLike(pat, s);
    CollectCodeLike(s, lens, 0);
    ms
  }

  /** Nothing is found exactly when the pattern matches nowhere. */
  lemma FindAllEmpty(pat: Pattern, s: string)
    ensures FindAll(pat, s) == [] <==> forall q :: 0 <= q < |s| ==> MatchAt(pat, s, q) == 0
  {
    var lens := MatchLengths(pat, s);
    assert FindAll(pat, s) == Collect(s, lens, 0);
    forall q | 0 <= q < |s|
      ensures lens[q] == MatchAt(pat, s, q)
    {
      MatchLengthsAt(pat, s, q);
    }
  }

  /** The first string found is the leftmost match, and the search then
      resumes right after it. */
  lemma FindAllLeftmost(pat: Pattern, s: string, q: nat)
    requires q < |s| && MatchAt(pat, s, q) > 0
    requires forall j :: 0 <= j < q ==> MatchAt(pat, s, j) == 0
    ensures FindAll(pat, s) == [s[q..q + MatchAt(pat, s, q)]] + Collect(s, MatchLengths(pat, s), q + MatchAt(pat, s, q))
  {
    var lens := MatchLengths(pat, s);
    MatchLengthsAt(pat, s, q);
    forall j | 0 <= j < q
      ensures lens[j] == 0
    {
      MatchLengthsAt(pat, s, j);
    }
    LeftmostOf(s, lens, q, FindAll(pat, s));
  }

  /** `CollectLeftmost` from the start, for a scan already known to be
      `Collect` over `lens`. */
  lemma LeftmostOf(s: string, lens: seq<nat>, q: nat, ms: seq<string>)
    requires Fits(s, lens) && q < |s| && lens[q] > 0
    requires forall j :: 0 <= j < q ==> lens[j] == 0
    requires ms == Collect(s, lens, 0)
    ensures ms == [s[q..q + lens[q]]] + Collect(s, lens, q + lens[q])
  {
    CollectLeftmost(s, lens, 0, q);
  }

  /** The `n` characters at `q` occur in `s` and end in eight digits. */
  predicate CodeLike(s: string, q: nat, n: nat)
    requires q + n <= |s|
  {
    EndsWithEightDigits(s[q..q + n]) && Contains(s, s[q..q + n])
  }

  /** When every match is code-like, so is everything the scan finds. */
  lemma {:induction false} CollectCodeLike(s: string, lens: seq<nat>, p: nat)
    requires Fits(s, lens) && p <= |s|
    requires forall q :: 0 <= q < |s| && lens[q] > 0 ==> CodeLike(s, q, lens[q])
    ensures forall k :: 0 <= k < |Collect(s, lens, p)| ==>
              EndsWithEightDigits(Collect(s, lens, p)[k]) && Contains(s, Collect(s, lens, p)[k])
    decreases |s| - p
  {
    if p < |s| {
      if lens[p] > 0 {
        var ms := Collect(s, lens, p);
        var rest := Collect(s, lens, p + lens[p]);
        assert ms == [s[p..p + lens[p]]] + rest;
        CollectCodeLike(s, lens, p + lens[p]);
        forall k | 0 <= k < |ms|
          ensures EndsWithEightDigits(ms[k]) && Contains(s, ms[k])
        {
          if k == 0 {
            assert CodeLike(s, p, lens[p]);
          } else {
            assert ms[k] == rest[k - 1];
          }
        }
      } else {
        CollectCodeLike(s, lens, p + 1);
      }
    }
  }

  /** Every position where the pattern matches starts a code-like string. */
  lemma LengthsCodeLike(pat: Pattern, s: string)
    ensures forall q :: 0 <= q < |s| && MatchLengths(pat, s)[q] > 0 ==> CodeLike(s, q, MatchLengths(pat, s)[q])
  {
    forall q | 0 <= q < |s| && MatchLengths(pat, s)[q] > 0
      ensures CodeLike(s, q, MatchLengths(pat, s)[q])
    {
      MatchLengthsAt(pat, s, q);
      MatchFound(pat, s, q);
    }
  }

  /** A match occurs in the text and ends in eight digits. */
  lemma MatchFound(pat: Pattern, s: string, q: nat)
    requires q < |s| && MatchAt(pat, s, q) > 0
    ensures CodeLike(s, q, MatchAt(pat, s, q))
  {
    ContainsAt(s, s[q..q + MatchAt(pat, s, q)], q);
  }

  /** `re.match(r'^(19|20)\d{2}', m)`: the text starts like a year. */
  predicate YearLike(m: string) {
    |m| >= 4 && ((m[0] == '1' && m[1] == '9') || (m[0] == '2' && m[1] == '0'))
    && IsDigit(m[2]) && IsDigit(m[3])
  }

  /** The first match, left to right, that does not start like a year. */
  function FirstNonYear(ms: seq<string>): (r: Option<string>)
    ensures r.Some? ==> !YearLike(r.value) && r.value in ms
    ensures r.None? <==> forall k :: 0 <= k < |ms| ==> YearLike(ms[k])
    ensures r.Some? ==> exists k :: 0 <= k < |ms| && ms[k] == r.value && forall j :: 0 <= j < k ==> YearLike(ms[j])
    decreases |ms|
  {
    if ms == [] then None
    else if !YearLike(ms[0]) then Some(ms[0])
    else
      var r := FirstNonYear(ms[1..]);
      assert forall k :: 1 <= k <= |ms[1..]| ==> ms[k] == ms[1..][k - 1];
      r
  }

  /** Pattern `k` has a match that does not start like a year, and no
      pattern before it has one. */
  predicate FirstYieldAt(pats: seq<Pattern>, s: string, k: int) {
    0 <= k < |pats| && FirstNonYear(FindAll(pats[k], s)).Some?
    && forall j :: 0 <= j < k ==> FirstNonYear(FindAll(pats[j], s)).None?
  }

  /** Patterns in order, each one's matches left to right: the code is the
      first non-year match of the first pattern that has one. */
  function PatternTierFrom(pats: seq<Pattern>, s: string): (r: Option<string>)
    ensures r.Some? ==> !YearLike(r.value) && EndsWithEightDigits(r.value) && Contains(s, r.value)
    ensures r.Some? ==> exists k :: FirstYieldAt(pats, s, k) && r == FirstNonYear(FindAll(pats[k], s))
    ensures r.None? <==> forall k :: 0 <= k < |pats| ==> FirstNonYear(FindAll(pats[k], s)).None?
    decreases |pats|
  {
    if pats == [] then None
    else
      var here := FirstNonYear(FindAll(pats[0], s));
      if here.Some? then
        assert FirstYieldAt(pats, s, 0);
        here
      else
        var r := PatternTierFrom(pats[1..], s);
        assert forall k :: 1 <= k < |pats| ==> pats[k] == pats[1..][k - 1];
        if r.Some? then
          PatternTierShift(pats, s, r);
          r
        else r
  }

  /** Skipping a first pattern that yields nothing. */
  lemma PatternTierShift(pats: seq<Pattern>, s: string, r: Option<string>)
    requires pats != [] && FirstNonYear(FindAll(pats[0], s)).None? && r.Some?
    requires exists k :: FirstYieldAt(pats[1..], s, k) && r == FirstNonYear(FindAll(pats[1..][k], s))
    ensures exists k :: FirstYieldAt(pats, s, k) && r == FirstNonYear(FindAll(pats[k], s))
  {
    var k :| FirstYieldAt(pats[1..], s, k) && r == FirstNonYear(FindAll(pats[1..][k], s));
    assert pats[k + 1] == pats[1..][k];
    forall j | 1 <= j <= k
      ensures FirstNonYear(FindAll(pats[j], s)).None?
    {
      assert pats[j] == pats[1..][j - 1];
    }
    assert FirstYieldAt(pats, s, k + 1);
  }

  /** The pattern tier over the five patterns in their fixed order. */
  function PatternTier(s: string): (r: Option<string>)
    ensures r.Some? ==> !YearLike(r.value) && EndsWithEightDigits(r.value) && Contains(s, r.value)
    ensures r.Some? ==> exists k :: FirstYieldAt(Patterns, s, k) && r == FirstNonYear(FindAll(Patterns[k], s))
    ensures r.None? <==> forall k :: 0 <= k < |Patterns| ==> FirstNonYear(FindAll(Patterns[k], s)).None?
  {
    PatternTierFrom(Patterns, s)
  }

  method FirstNonYearMatch(ms: seq<string>) returns (r: Option<string>)
    ensures r == FirstNonYear(ms)
  {
    var i := 0;
    while i < |ms|
      invariant 0 <= i <= |ms|
      invariant FirstNonYear(ms[i..]) == FirstNonYear(ms)
    {
      if !YearLike(ms[i]) {
        return Some(ms[i]);
      }
      assert ms[i..][1..] == ms[i + 1..];
      i := i + 1;
    }
    return None;
  }

  method SearchPatterns(pats: seq<Pattern>, s: string) returns (r: Option<string>)
    ensures r == PatternTierFrom(pats, s)
  {
    var k := 0;
    while k < |pats|
      invariant 0 <= k <= |pats|
      invariant PatternTierFrom(pats[k..], s) == PatternTierFrom(pats, s)
    {
      var code := FirstNonYearMatch(FindAll(pats[k], s));
      if code.Some? {
        return code;
      }
      assert pats[k..][1..] == pats[k + 1..];
      k := k + 1;
    }
    return None;
  }

  // ----- the whole search -----

  /** The page reached after submitting: what each polling round reads,
      what each selector finds, and the page source the patterns scan
      (`None` when reading it raised). */
  datatype ResultPage = ResultPage(
    poll: nat -> PollView,
    elements: string -> Option<seq<Option<string>>>,
    source: Option<string>)

  /** The element tier over `selectors` first, then the pattern tier;
      `None` when neither yields a code. The processor passes
      `CodeSelectors`. */
  function ExtractCode(selectors: seq<string>, page: ResultPage): (code: Option<string>)
    ensures code.Some? ==> |code.value| >= 6 && HasDigit(code.value)
    ensures ElementTier(selectors, page.elements).Some? ==> code == ElementTier(selectors, page.elements)
    ensures ElementTier(selectors, page.elements).None? && page.source.Some? ==>
              code == PatternTier(page.source.value)
    ensures code.None? <==> ElementTier(selectors, page.elements).None?
                            && (page.source.None? || PatternTier(page.source.value).None?)
    ensures code.Some? && ElementTier(selectors, page.elements).None? ==>
              page.source.Some? && !YearLike(code.value) && Contains(page.source.value, code.value)
  {
    match ElementTier(selectors, page.elements)
    case Some(c) => Some(c)
    case None =>
      if page.source.None? then None
      else
        var r := PatternTier(page.source.value);
        if r.Some? then
          EightDigitsPlausible(r.value);
          r
        else r
  }

  /** A pattern code is long enough and holds a digit. */
  lemma EightDigitsPlausible(code: string)
    requires EndsWithEightDigits(code)
    ensures |code| >= 6 && HasDigit(code)
  {
    assert IsDigit(code[|code| - 1]);
  }

  /** The search as the processor runs it: wait, elements, patterns. */
  method FindConfirmationCode(page: ResultPage) returns (code: Option<string>)
    ensures code == ExtractCode(CodeSelectors, page)
  {
    var _ := WaitForConfirmation(page.poll);
    code := SearchElements(CodeSelectors, page.elements);
    if code.None? && page.source.Some? {
      code := SearchPatterns(Patterns, page.source.value);
    }
  }

  // ----- properties of the pattern tier -----

  function CountDigits(s: string): nat {
    if s == [] then 0 else (if IsDigit(s[0]) then 1 else 0) + CountDigits(s[1..])
  }

  lemma {:induction false} DigitRunAtMostCount(s: string, p: nat)
    requires p <= |s|
    ensures DigitRun(s, p) <= CountDigits(s[p..])
    decreases |s| - p
  {
    if p < |s| && IsDigit(s[p]) {
      DigitRunAtMostCount(s, p + 1);
      assert s[p..][1..] == s[p + 1..];
    }
  }

  lemma {:induction false} CountDigitsOfSuffix(s: string, p: nat)
    requires p <= |s|
    ensures CountDigits(s[p..]) <= CountDigits(s)
    decreases p
  {
    if p > 0 {
      CountDigitsOfSuffix(s[1..], p - 1);
      assert s[1..][p - 1..] == s[p..];
    }
  }

  lemma FewDigitsNoMatches(pat: Pattern, s: string)
    requires CountDigits(s) < 8
    ensures FindAll(pat, s) == []
  {
    forall q | 0 <= q < |s|
      ensures MatchAt(pat, s, q) == 0
    {
      FewDigitsNoMatch(pat, s, q);
    }
    FindAllEmpty(pat, s);
  }

  /** A match needs eight digits in a row. */
  lemma FewDigitsNoMatch(pat: Pattern, s: string, p: nat)
    requires p < |s| && CountDigits(s) < 8
    ensures MatchAt(pat, s, p) == 0
  {
    var n := MatchAt(pat, s, p);
    if n > 0 {
      FewDigitsShortRun(s, p + n - 8);
    }
  }

  lemma FewDigitsShortRun(s: string, q: nat)
    requires q <= |s| && CountDigits(s) < 8
    ensures DigitRun(s, q) < 8
  {
    DigitRunAtMostCount(s, q);
    CountDigitsOfSuffix(s, q);
  }

  lemma {:induction false} CountDigitsAppend(a: string, b: string)
    ensures CountDigits(a + b) == CountDigits(a) + CountDigits(b)
    decreases |a|
  {
    if a != [] {
      assert (a + b)[1..] == a[1..] + b;
      CountDigitsAppend(a[1..], b);
    } else {
      assert a + b == b;
    }
  }

  lemma {:induction false} CountDigitsAtMostLength(s: string)
    ensures CountDigits(s) <= |s|
    decreases |s|
  {
    if s != [] {
      CountDigitsAtMostLength(s[1..]);
    }
  }

  lemma {:induction false} NoDigitsNoCount(s: string)
    requires forall i :: 0 <= i < |s| ==> !IsDigit(s[i])
    ensures CountDigits(s) == 0
    decreases |s|
  {
    if s != [] {
      NoDigitsNoCount(s[1..]);
    }
  }

  /** Every pattern needs eight digits in a row, so a page with fewer than
      eight digits in all (a lone year such as 2024, say) yields no code. */
  lemma FewDigitsNoCode(s: string)
    requires CountDigits(s) < 8
    ensures PatternTier(s) == None
  {
    forall k | 0 <= k < |Patterns|
      ensures FirstNonYear(FindAll(Patterns[k], s)).None?
    {
      FewDigitsNoMatches(Patterns[k], s);
    }
  }

  /** A digit-free text ending in a four-character year (such as
      "Welcome! Your ID is 2024") gives no code. */
  lemma YearOnlyPageGivesNothing(text: string, year: string)
    requires forall i :: 0 <= i < |text| ==> !IsDigit(text[i])
    requires |year| == 4
    ensures PatternTier(text + year) == None
  {
    NoDigitsNoCount(text);
    CountDigitsAppend(text, year);
    CountDigitsAtMostLength(year);
    FewDigitsNoCode(text + year);
  }

  /** A page whose source is just `MB` and eight to twelve digits yields
      that whole text as the code. */
  lemma MbCodeFound(digits: string)
    requires 8 <= |digits| <= 12 && forall i :: 0 <= i < |digits| ==> IsDigit(digits[i])
    ensures PatternTier("MB" + digits) == Some("MB" + digits)
  {
    var s := "MB" + digits;
    DigitRunSuffix(s, 2, |s|);
    assert MatchAt(MbCode, s, 0) == |s|;
    var lens := MatchLengths(MbCode, s);
    assert s[0..|s|] == s && Collect(s, lens, |s|) == [];
    assert FindAll(MbCode, s) == [s];
    assert !YearLike(s);
  }
}
