/** A scanner for the two patterns the client looks for in the dashboard page:
    `re.findall(r'data-code="(\d+)"[^>]*>([^<]+)<', html)` and
    `re.search(r'data-assoc="(\d+)"', html)`.

    Neither pattern leaves the regex engine any real choice: `\d+` is followed
    by a quote, `[^>]*` by `>` and `[^<]+` by `<`, so each greedy run has to
    stop exactly at the first character it cannot take. Trying the pattern at
    one position is therefore a straight scan, and `findall` is that scan
    repeated from the end of each match (or one position on after a miss). */
module Markup {
  import opened Values
  import opened Text

  const CodeAttr := "data-code=\""
  const AssocAttr := "data-assoc=\""

  /** One `(id, caption)` tuple of `findall`. */
  datatype CodeMatch = CodeMatch(id: string, caption: string)

  /** The end of the longest run of digits that starts at `i`. */
  function DigitsEnd(s: string, i: nat): (j: nat)
    requires i <= |s|
    ensures i <= j <= |s|
    ensures forall k :: i <= k < j ==> IsDigit(s[k])
    ensures j < |s| ==> !IsDigit(s[j])
    decreases |s| - i
  {
    if i < |s| && IsDigit(s[i]) then DigitsEnd(s, i + 1) else i
  }

  /** The first position at or after `i` that holds `c`. */
  function CharFrom(s: string, i: nat, c: char): (r: Option<nat>)
    ensures r.Some? ==> i <= r.value < |s| && s[r.value] == c
    ensures forall k :: i <= k < |s| && (r.None? || k < r.value) ==> s[k] != c
    decreases |s| - i
  {
    if i >= |s| then None
    else if s[i] == c then Some(i)
    else CharFrom(s, i + 1, c)
  }

  /** `(\d+)"` at position `i`: the digits and the position after the quote. */
  function QuotedDigits(s: string, i: nat): (r: Option<(string, nat)>)
    requires i <= |s|
    ensures r.Some? ==> IsDigits(r.value.0) && i < r.value.1 <= |s|
    ensures r.Some? ==> s[i..r.value.1] == r.value.0 + "\""
  {
    var j := DigitsEnd(s, i);
    if j == i || j >= |s| || s[j] != '"' then None
    else Some((s[i..j], j + 1))
  }

  /** The `data-code` pattern tried at position `i`: the match and the
      position just after its closing `<`. */
  function CodeMatchAt(s: string, i: nat): (r: Option<(CodeMatch, nat)>)
    ensures r.Some? ==> IsDigits(r.value.0.id)
    ensures r.Some? ==> r.value.0.caption != [] && '<' !in r.value.0.caption
    ensures r.Some? ==> i < r.value.1 <= |s|
    ensures r.Some? ==> OccursAt(s, CodeAttr + r.value.0.id + "\"", i)
  {
    if !OccursAt(s, CodeAttr, i) then None
    else match QuotedDigits(s, i + |CodeAttr|)
      case None => None
      case Some((id, j)) =>
        match CharFrom(s, j, '>')
        case None => None
        case Some(k) =>
          match CharFrom(s, k + 1, '<')
          case None => None
          case Some(l) =>
            if l == k + 1 then None
            else
              assert s[i..j] == CodeAttr + id + "\"" by {
                assert s[i..j] == s[i..i + |CodeAttr|] + s[i + |CodeAttr|..j];
              }
              Some((CodeMatch(id, s[k + 1..l]), l + 1))
  }

  /** `findall` of the `data-code` pattern from position `i` on, in document
      order. */
  function CodeMatchesFrom(s: string, i: nat): (ms: seq<CodeMatch>)
    requires i <= |s|
    ensures forall k :: 0 <= k < |ms| ==> IsDigits(ms[k].id)
    ensures forall k :: 0 <= k < |ms| ==> ms[k].caption != [] && '<' !in ms[k].caption
    ensures forall k :: 0 <= k < |ms| ==> Contains(s, CodeAttr + ms[k].id + "\"")
    decreases |s| - i
  {
    if i == |s| then []
    else match CodeMatchAt(s, i)
      case Some((m, e)) =>
        assert OccursAt(s, CodeAttr + m.id + "\"", i);
        [m] + CodeMatchesFrom(s, e)
      case None => CodeMatchesFrom(s, i + 1)
  }

  function CodeMatches(html: string): (ms: seq<CodeMatch>)
    ensures forall k :: 0 <= k < |ms| ==> IsDigits(ms[k].id)
    ensures forall k :: 0 <= k < |ms| ==> ms[k].caption != [] && '<' !in ms[k].caption
    ensures forall k :: 0 <= k < |ms| ==> Contains(html, CodeAttr + ms[k].id + "\"")
  {
    CodeMatchesFrom(html, 0)
  }

  /** `p` is the first position at or after `i` where the `data-code`
      pattern matches. */
  predicate FirstCodeAt(s: string, i: nat, p: nat) {
    && i <= p < |s| && CodeMatchAt(s, p).Some?
    && forall q :: i <= q < p ==> CodeMatchAt(s, q).None?
  }

  /** `findall` finds no match from `i` on exactly when the pattern matches
      nowhere from `i` on. */
  lemma {:induction false} CodeMatchesFromEmpty(s: string, i: nat)
    requires i <= |s|
    ensures CodeMatchesFrom(s, i) == [] <==> forall p :: i <= p < |s| ==> CodeMatchAt(s, p).None?
    decreases |s| - i
  {
    if i < |s| {
      if CodeMatchAt(s, i).None? {
        assert CodeMatchesFrom(s, i) == CodeMatchesFrom(s, i + 1);
        CodeMatchesFromEmpty(s, i + 1);
      } else {
        assert |CodeMatchesFrom(s, i)| > 0;
      }
    }
  }

  /** When `findall` finds something from `i` on, it starts with the match at
      the first position where the pattern matches and goes on after that
      match's end. */
  lemma {:induction false} CodeMatchesFromFirst(s: string, i: nat)
    requires i <= |s| && CodeMatchesFrom(s, i) != []
    ensures exists p :: (FirstCodeAt(s, i, p)
      && CodeMatchesFrom(s, i) == [CodeMatchAt(s, p).value.0] + CodeMatchesFrom(s, CodeMatchAt(s, p).value.1))
    decreases |s| - i
  {
    if CodeMatchAt(s, i).Some? {
      assert FirstCodeAt(s, i, i);
    } else {
      CodeMatchesFromFirst(s, i + 1);
      var p :| FirstCodeAt(s, i + 1, p)
        && CodeMatchesFrom(s, i + 1) == [CodeMatchAt(s, p).value.0] + CodeMatchesFrom(s, CodeMatchAt(s, p).value.1);
      assert FirstCodeAt(s, i, p);
    }
  }

  /** `findall` misses nothing: it finds no match exactly when the pattern
      matches nowhere from `i` on, and otherwise starts with the match at the
      first position where it does and goes on after that match's end. */
  lemma CodeMatchesFromComplete(s: string, i: nat)
    requires i <= |s|
    ensures CodeMatchesFrom(s, i) == [] <==> forall p :: i <= p < |s| ==> CodeMatchAt(s, p).None?
    ensures CodeMatchesFrom(s, i) != [] ==>
      exists p :: FirstCodeAt(s, i, p)
        && CodeMatchesFrom(s, i) == [CodeMatchAt(s, p).value.0] + CodeMatchesFrom(s, CodeMatchAt(s, p).value.1)
  {
    CodeMatchesFromEmpty(s, i);
    if CodeMatchesFrom(s, i) != [] {
      CodeMatchesFromFirst(s, i);
    }
  }

  /** The same for the whole page. */
  lemma CodeMatchesComplete(html: string)
    ensures CodeMatches(html) == [] <==> forall p :: 0 <= p < |html| ==> CodeMatchAt(html, p).None?
    ensures CodeMatches(html) != [] ==>
      exists p :: FirstCodeAt(html, 0, p)
        && CodeMatches(html) == [CodeMatchAt(html, p).value.0] + CodeMatchesFrom(html, CodeMatchAt(html, p).value.1)
  {
    CodeMatchesFromComplete(html, 0);
  }

  /** The `data-assoc` pattern matches at position `k`. */
  predicate AssocAt(s: string, k: nat) {
    OccursAt(s, AssocAttr, k) && QuotedDigits(s, k + |AssocAttr|).Some?
  }

  /** A match of the `data-assoc` pattern spells the attribute, the digits
      and the closing quote. */
  lemma AssocOccurs(s: string, i: nat)
    requires AssocAt(s, i)
    ensures OccursAt(s, AssocAttr + QuotedDigits(s, i + |AssocAttr|).value.0 + "\"", i)
  {
    var id := QuotedDigits(s, i + |AssocAttr|).value.0;
    var j := QuotedDigits(s, i + |AssocAttr|).value.1;
    assert s[i..j] == s[i..i + |AssocAttr|] + s[i + |AssocAttr|..j];
  }

  /** `re.search` of the `data-assoc` pattern from position `i`: the digits of
      the leftmost match, if any. */
  function AssocFrom(s: string, i: nat): (r: Option<string>)
    requires i <= |s|
    ensures r.Some? ==> IsDigits(r.value) && Contains(s, AssocAttr + r.value + "\"")
    ensures r.Some? ==>
      exists k :: (i <= k <= |s| && AssocAt(s, k)
        && QuotedDigits(s, k + |AssocAttr|).value.0 == r.value
        && forall k' :: i <= k' < k ==> !AssocAt(s, k'))
    ensures r.None? ==> forall k :: i <= k <= |s| ==> !AssocAt(s, k)
    decreases |s| - i
  {
    if i + |AssocAttr| > |s| then None
    else if AssocAt(s, i) then
      AssocOccurs(s, i);
      Some(QuotedDigits(s, i + |AssocAttr|).value.0)
    else
      AssocFrom(s, i + 1)
  }

  /** `re.search` of the `data-assoc` pattern: the digits of its leftmost
      match. */
  function FirstAssoc(html: string): (r: Option<string>)
    ensures r.Some? ==> IsDigits(r.value) && Contains(html, AssocAttr + r.value + "\"")
    ensures r.Some? ==>
      exists k :: (0 <= k <= |html| && AssocAt(html, k)
        && QuotedDigits(html, k + |AssocAttr|).value.0 == r.value
        && forall k' :: 0 <= k' < k ==> !AssocAt(html, k'))
    ensures r.None? <==> forall k :: 0 <= k <= |html| ==> !AssocAt(html, k)
  {
    AssocFrom(html, 0)
  }
}
