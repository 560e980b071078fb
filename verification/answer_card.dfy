/** The link resolution of the answer renderer (src/components/AnswerCard.tsx):
    an href carrying `#citation-<digits>` whose number names one of the
    answer's sources becomes a citation popover for that source; every other
    link stays a plain external link. */
module AnswerCard {
  import opened Types

  /** The literal part of `CITATION_REGEX = /#citation-(\d+)/`. */
  const CitationPrefix: string := "#citation-"

  /** `\d` without the `u` flag: an ASCII decimal digit. */
  predicate IsDigit(c: char)
  {
    '0' <= c <= '9'
  }

  predicate AllDigits(d: string)
  {
    forall k :: 0 <= k < |d| ==> IsDigit(d[k])
  }

  /** The pattern matches at position `i`: the prefix, then at least one digit. */
  predicate MatchesAt(s: string, i: nat)
  {
    && i + |CitationPrefix| < |s|
    && s[i..i + |CitationPrefix|] == CitationPrefix
    && IsDigit(s[i + |CitationPrefix|])
  }

  /** The leftmost match at or after `from`, as `RegExp.exec` finds it on an
      unanchored pattern. */
  function FirstMatch(s: string, from: nat): (r: Option<nat>)
    decreases |s| - from
    ensures r.Some? ==> from <= r.value && MatchesAt(s, r.value)
    ensures r.Some? ==> forall j :: from <= j < r.value ==> !MatchesAt(s, j)
    ensures r.None? ==> forall j :: from <= j ==> !MatchesAt(s, j)
  {
    if from + |CitationPrefix| >= |s| then None
    else if MatchesAt(s, from) then Some(from)
    else FirstMatch(s, from + 1)
  }

  /** Where the greedy `\d+` starting at `i` stops: the end of the maximal
      run of digits. */
  function DigitRunEnd(s: string, i: nat): (e: nat)
    requires i <= |s|
    decreases |s| - i
    ensures i <= e <= |s|
    ensures forall k :: i <= k < e ==> IsDigit(s[k])
    ensures e == |s| || !IsDigit(s[e])
  {
    if i < |s| && IsDigit(s[i]) then DigitRunEnd(s, i + 1) else i
  }

  function DigitValue(c: char): nat
    requires IsDigit(c)
  {
    (c as int) - ('0' as int)
  }

  /** `parseInt(d, 10)` on a string of digits only. */
  function DecimalValue(d: string): nat
    requires AllDigits(d)
  {
    if d == [] then 0 else 10 * DecimalValue(d[..|d| - 1]) + DigitValue(d[|d| - 1])
  }

  /** The number of a citation href: the base-10 value of the digit run that
      follows the first match; none when the pattern does not occur. */
  function CitationId(href: string): (r: Option<nat>)
    ensures r.Some? <==> exists i :: MatchesAt(href, i)
  {
    match FirstMatch(href, 0)
    case None => None
    case Some(i) =>
      var start := i + |CitationPrefix|;
      Some(DecimalValue(href[start..DigitRunEnd(href, start)]))
  }

  /** `sources.find(s => s.id === id)`: the first source with that id. */
  function FindSource(sources: seq<Source>, id: int): (r: Option<Source>)
    ensures r.None? <==> forall k :: 0 <= k < |sources| ==> sources[k].id != id
    ensures r.Some? ==> exists k :: 0 <= k < |sources| && sources[k] == r.value && FirstWithId(sources, id, k)
  {
    if sources == [] then None
    else if sources[0].id == id then Some(sources[0])
    else
      var rest := FindSource(sources[1..], id);
      assert rest.Some? ==> exists k :: 0 <= k < |sources| && sources[k] == rest.value && FirstWithId(sources, id, k) by {
        if rest.Some? {
          var k :| 0 <= k < |sources[1..]| && sources[1..][k] == rest.value && FirstWithId(sources[1..], id, k);
          assert sources[k + 1] == rest.value && FirstWithId(sources, id, k + 1);
        }
      }
      rest
  }

  /** Position `k` holds the first source whose id is `id`. */
  ghost predicate FirstWithId(sources: seq<Source>, id: int, k: nat)
  {
    && k < |sources|
    && sources[k].id == id
    && forall j :: 0 <= j < k ==> sources[j].id != id
  }

  /** What the `a` renderer produces. */
  datatype Link =
    | CitationPopover(source: Source)    // the cited source, shown in a popover
    | ExternalLink(href: Option<string>) // `<a href={href} target='_blank'>`, href as given

  /** The `a` renderer's decision: a missing or empty href is never tried; a
      matching href whose number names a source cites the first such source;
      everything else stays an external link with the href unchanged. */
  function ResolveLink(href: Option<string>, sources: seq<Source>): (r: Link)
    ensures href.None? ==> r == ExternalLink(href)
    ensures r.ExternalLink? ==> r.href == href
    ensures r.CitationPopover? <==>
      href.Some? && CitationId(href.value).Some? && FindSource(sources, CitationId(href.value).value).Some?
    ensures r.CitationPopover? ==>
      exists k :: 0 <= k < |sources| && sources[k] == r.source && FirstWithId(sources, CitationId(href.value).value, k)
  {
    if href.None? || href.value == "" then ExternalLink(href)
    else
      match CitationId(href.value)
      case None => ExternalLink(href)
      case Some(sourceId) =>
        match FindSource(sources, sourceId)
        case Some(source) => CitationPopover(source)
        case None => ExternalLink(href)
  }

  /** The card for one answer, given the hrefs of the links its markdown
      contains: an empty answer renders nothing; otherwise each link is
      resolved against the answer's sources. */
  function RenderAnswerCard(answer: string, sources: seq<Source>, hrefs: seq<Option<string>>): (r: Option<seq<Link>>)
    ensures r.None? <==> answer == ""
    ensures r.Some? ==> |r.value| == |hrefs|
    ensures r.Some? ==> forall i :: 0 <= i < |hrefs| ==> r.value[i] == ResolveLink(hrefs[i], sources)
  {
    if answer == "" then None
    else Some(seq(|hrefs|, i requires 0 <= i < |hrefs| => ResolveLink(hrefs[i], sources)))
  }

  /** Reading the first match: when `i` is the leftmost match and the digits
      after its prefix run exactly up to `e`, the citation id is the base-10
      value of `href[i + 10..e]`. */
  lemma {:induction false} CitationIdReadsFirstRun(href: string, i: nat, e: nat)
    requires MatchesAt(href, i)
    requires forall j :: 0 <= j < i ==> !MatchesAt(href, j)
    requires i + |CitationPrefix| < e <= |href|
    requires forall k :: i + |CitationPrefix| <= k < e ==> IsDigit(href[k])
    requires e == |href| || !IsDigit(href[e])
    ensures AllDigits(href[i + |CitationPrefix|..e])
    ensures CitationId(href) == Some(DecimalValue(href[i + |CitationPrefix|..e]))
  {
  }

  /** `parseInt` ignores leading zeros: `#citation-007` cites source 7. */
  lemma {:induction false} LeadingZerosIgnored(d: string)
    requires AllDigits(d)
    ensures AllDigits("0" + d) && DecimalValue("0" + d) == DecimalValue(d)
    decreases |d|
  {
    if d != [] {
      var z := "0" + d;
      assert z[..|z| - 1] == "0" + d[..|d| - 1];
      assert z[|z| - 1] == d[|d| - 1];
      LeadingZerosIgnored(d[..|d| - 1]);
    }
  }

  /** The decimal spelling of a number, as a writer of citation anchors produces it. */
  function DecimalString(n: nat): (d: string)
    ensures |d| > 0 && AllDigits(d)
  {
    if n < 10 then [DigitChar(n)] else DecimalString(n / 10) + [DigitChar(n % 10)]
  }

  function DigitChar(v: nat): (c: char)
    requires v < 10
    ensures IsDigit(c) && DigitValue(c) == v
  {
    ('0' as int + v) as char
  }

  /** `parseInt` reads back what `DecimalString` spells. */
  lemma {:induction false} DecimalRoundTrip(n: nat)
    ensures DecimalValue(DecimalString(n)) == n
  {
    if n >= 10 {
      var d := DecimalString(n);
      DecimalRoundTrip(n / 10);
      assert d[..|d| - 1] == DecimalString(n / 10);
    }
  }

  /** An anchor `#citation-<n>` followed by anything that does not start
      with a digit carries the id `n`. */
  lemma {:induction false} CitationAnchorRoundTrip(n: nat, rest: string)
    requires rest == [] || !IsDigit(rest[0])
    ensures CitationId(CitationPrefix + DecimalString(n) + rest) == Some(n)
  {
    var digits := DecimalString(n);
    var href := CitationPrefix + digits + rest;
    var start := |CitationPrefix|;
    var e := start + |digits|;
    assert href[0..start] == CitationPrefix;
    assert href[start] == digits[0];
    assert MatchesAt(href, 0);
    assert forall k :: start <= k < e ==> href[k] == digits[k - start];
    assert e < |href| ==> href[e] == rest[0];
    CitationIdReadsFirstRun(href, 0, e);
    assert href[start..e] == digits;
    DecimalRoundTrip(n);
  }

  /** Hence such an anchor opens the popover of the first source with id `n`
      whenever the answer has one, and is a plain link otherwise. */
  lemma {:induction false} CitationAnchorResolves(n: nat, rest: string, sources: seq<Source>)
    requires rest == [] || !IsDigit(rest[0])
    ensures var href := CitationPrefix + DecimalString(n) + rest;
      ResolveLink(Some(href), sources)
        == match FindSource(sources, n)
           case Some(source) => CitationPopover(source)
           case None => ExternalLink(Some(href))
  {
    var href := CitationPrefix + DecimalString(n) + rest;
    CitationAnchorRoundTrip(n, rest);
    assert href != "";
  }
}
