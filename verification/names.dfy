/** Splitting a guest's full name into the given name and the family name
    the enrollment form asks for. */
module Names {
  import opened Common

  datatype NameParts = NameParts(given: string, family: string)

  /** `full.strip().split()`, then token 0 as the given name and the other
      tokens joined by single spaces as the family name; fewer than two
      tokens is an error. */
  function SplitFullName(full: string): (r: Option<NameParts>)
    ensures r.None? <==> |Words(full)| < 2
    ensures r.Some? ==> r.value.given == Words(full)[0]
    ensures r.Some? ==> r.value.given + " " + r.value.family == Join(Words(full), " ")
    ensures r.Some? ==> Words(r.value.family) == Words(full)[1..]
    ensures r.Some? ==> Words(r.value.given + " " + r.value.family) == Words(full)
  {
    var parts := Words(Strip(full));
    WordsOfStrip(full);
    if |parts| < 2 then None
    else
      var family := Join(parts[1..], " ");
      WordsOfJoin(parts[1..]);
      WordsOfJoin(parts);
      Some(NameParts(parts[0], family))
  }

  lemma {:induction false} TokenLengthAppend(s: string, t: string)
    requires t == [] || IsSpace(t[0])
    ensures TokenLength(s + t) == TokenLength(s)
    decreases |s|
  {
    if s == [] {
      assert s + t == t;
    } else if !IsSpace(s[0]) {
      assert (s + t)[1..] == s[1..] + t;
      TokenLengthAppend(s[1..], t);
    }
  }

  lemma {:induction false} WordsSkipLeading(s: string, n: nat)
    requires n <= |s|
    requires forall i :: 0 <= i < n ==> IsSpace(s[i])
    ensures Words(s) == Words(s[n..])
    decreases n
  {
    if n > 0 {
      WordsSkipLeading(s[1..], n - 1);
      assert s[1..][n - 1..] == s[n..];
    }
  }

  lemma {:induction false} WordsDropTrailing(s: string, t: string)
    requires forall i :: 0 <= i < |t| ==> IsSpace(t[i])
    ensures Words(s + t) == Words(s)
    decreases |s|
  {
    if s == [] {
      assert s + t == t;
      WordsSkipLeading(t, |t|);
    } else if IsSpace(s[0]) {
      assert (s + t)[1..] == s[1..] + t;
      WordsDropTrailing(s[1..], t);
    } else {
      var n := TokenLength(s);
      if n < |s| {
        TokenLengthAppend(s, t);
      } else {
        TokenLengthAppend(s, t);
        assert s == s + [];
      }
      assert (s + t)[..n] == s[..n];
      assert (s + t)[n..] == s[n..] + t;
      WordsDropTrailing(s[n..], t);
    }
  }

  /** The `strip()` before `split()` does not change the tokens. */
  lemma WordsOfStrip(s: string)
    ensures Words(Strip(s)) == Words(s)
  {
    var k := LeadingSpaces(s);
    WordsSkipLeading(s, k);
    var t := s[k..];
    var m := |t| - TrailingSpaces(t);
    assert t == t[..m] + t[m..];
    WordsDropTrailing(t[..m], t[m..]);
  }

  /** Joining whitespace-free tokens with single spaces and splitting again
      gives the tokens back. */
  lemma {:induction false} WordsOfJoin(ws: seq<string>)
    requires forall k :: 0 <= k < |ws| ==> IsWord(ws[k])
    ensures Words(Join(ws, " ")) == ws
    decreases |ws|
  {
    if ws == [] {
    } else if |ws| == 1 {
      var w := ws[0];
      TokenLengthAppend(w, []);
      assert w + [] == w;
      assert TokenLength(w) == |w|;
    } else {
      var w := ws[0];
      var rest := Join(ws[1..], " ");
      var s := w + " " + rest;
      assert s == w + (" " + rest);
      TokenLengthAppend(w, " " + rest);
      assert TokenLength(w) == |w|;
      assert s[..|w|] == w;
      assert s[|w|..] == " " + rest;
      WordsSkipLeading(" " + rest, 1);
      assert (" " + rest)[1..] == rest;
      WordsOfJoin(ws[1..]);
    }
  }

  /** A single token, however much whitespace surrounds it, is refused. */
  lemma SingleTokenRefused(lead: string, w: string, trail: string)
    requires forall i :: 0 <= i < |lead| ==> IsSpace(lead[i])
    requires forall i :: 0 <= i < |trail| ==> IsSpace(trail[i])
    requires IsWord(w)
    ensures SplitFullName(lead + w + trail).None?
  {
    var s := lead + w + trail;
    assert s == lead + (w + trail);
    SingleWord(w);
    WordsDropTrailing(w, trail);
    LeadingThenWord(lead, w + trail);
    assert |Words(s)| == 1;
  }

  lemma SingleWord(w: string)
    requires IsWord(w)
    ensures Words(w) == [w]
  {
    WordsCons([], w, []);
    assert [] + w + [] == w;
  }

  lemma LeadingThenWord(lead: string, rest: string)
    requires forall i :: 0 <= i < |lead| ==> IsSpace(lead[i])
    ensures Words(lead + rest) == Words(rest)
  {
    var s := lead + rest;
    assert forall i :: 0 <= i < |lead| ==> s[i] == lead[i];
    WordsSkipLeading(s, |lead|);
    assert s[|lead|..] == rest;
  }
}
