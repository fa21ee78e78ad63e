/**
  The Global Momentum page (app.py): the bracket-span extraction that pulls a
  JSON list out of the model's free-form answer, the wrapper that turns every
  failure into `None`, the UP/DOWN split and the decision between trend cards
  and the "unavailable" message.
 */
module Trends {
  import opened Wrappers
  import opened Text

  /** One element of the decoded JSON list, with the keys the page reads. */
  datatype Trend = Trend(subject: string, team: string, status: string, stat: string, note: string)

  /**
    `[i, j)` is a match of the pattern `\[.*\]` under DOTALL: it opens with
    `[`, closes with `]`, and `.` matches any character in between, newlines
    included.
   */
  ghost predicate MatchesAt(text: string, i: int, j: int)
  {
    0 <= i && i + 2 <= j <= |text| && text[i] == '[' && text[j - 1] == ']'
  }

  /**
    The bounds `[start, end)` of `re.search(r'\[.*\]', text, re.DOTALL)`:
    from the first `[` to the last `]`, or no match when no `]` follows the
    first `[`.
   */
  function MatchBounds(text: string): Option<(nat, nat)>
  {
    match FirstIndexOf(text, '[')
    case None => None
    case Some(i) =>
      match LastIndexOf(text, ']')
      case None => None
      case Some(j) => if i < j then Some((i, j + 1)) else None
  }

  /**
    `match.group(0)`, when there is a match: absent exactly when no `]`
    follows the first `[`, and otherwise the contiguous piece of the text
    from its first `[` to its last `]`, which may hold newlines and further
    brackets.
   */
  function ExtractSpan(text: string): (r: Option<string>)
    ensures r.None? <==>
      match FirstIndexOf(text, '[')
      case None => true
      case Some(f) => forall k :: f < k < |text| ==> text[k] != ']'
    ensures r.Some? ==>
      && FirstIndexOf(text, '[').Some? && LastIndexOf(text, ']').Some?
      && var first := FirstIndexOf(text, '[').value;
      var last := LastIndexOf(text, ']').value;
      && first < last
      && r.value == text[first..last + 1]
      && 2 <= |r.value|
      && r.value[0] == '[' && r.value[|r.value| - 1] == ']'
  {
    match MatchBounds(text)
    case None => None
    case Some((i, j)) =>
      assert text[j - 1] == ']';
      assert text[i..j][0] == text[i];
      assert text[i..j][j - i - 1] == text[j - 1];
      Some(text[i..j])
  }

  /**
    The bounds are the match Python's engine reports: a match, the leftmost
    one, and of the matches that start there the longest (greedy `.*`), and
    there is no match at all exactly when the bounds are absent.
   */
  lemma MatchBoundsIsLeftmostLongest(text: string)
    ensures MatchBounds(text).None? <==> forall i, j :: !MatchesAt(text, i, j)
    ensures MatchBounds(text).Some? ==>
      var (i, j) := MatchBounds(text).value;
      && MatchesAt(text, i, j)
      && forall i', j' :: MatchesAt(text, i', j') ==> i <= i' && j' <= j
  {
    match FirstIndexOf(text, '[')
    case None =>
    case Some(f) =>
      match LastIndexOf(text, ']')
      case None =>
      case Some(l) =>
        if f < l {
          assert MatchesAt(text, f, l + 1);
        } else {
          forall i, j ensures !MatchesAt(text, i, j) {
          }
        }
  }

  /** What `extract_json_list` does with a text: no match, `json.loads` raises, or a decoded list. */
  datatype Extracted = NoList | DecodeRaised | Decoded(items: seq<Trend>)

  /**
    `extract_json_list(text)`; `decode` is `json.loads` on a bracketed span,
    `None` where it raises.
   */
  function ExtractJsonList(text: string, decode: string -> Option<seq<Trend>>): (r: Extracted)
    ensures r.NoList? <==> ExtractSpan(text).None?
    ensures r.DecodeRaised? <==> ExtractSpan(text).Some? && decode(ExtractSpan(text).value).None?
    ensures r.Decoded? ==> decode(ExtractSpan(text).value) == Some(r.items)
  {
    match ExtractSpan(text)
    case None => NoList
    case Some(span) =>
      match decode(span)
      case None => DecodeRaised
      case Some(items) => Decoded(items)
  }

  /**
    `get_global_trends()`: `response` is the text of the model's answer, or
    `None` when the call raised; every failure ends as `None`.
   */
  function GetGlobalTrends(response: Option<string>, decode: string -> Option<seq<Trend>>): (r: Option<seq<Trend>>)
    ensures r.Some? <==>
      && response.Some?
      && ExtractSpan(response.value).Some?
      && decode(ExtractSpan(response.value).value).Some?
    ensures r.Some? ==> r == decode(ExtractSpan(response.value).value)
  {
    match response
    case None => None
    case Some(text) =>
      match ExtractJsonList(text, decode)
      case Decoded(items) => Some(items)
      case _ => None
  }

  /** `[t for t in trends if t['status'].upper() == wanted]` */
  function Select(trends: seq<Trend>, wanted: string): (r: seq<Trend>)
    ensures |r| <= |trends|
    ensures forall i :: 0 <= i < |r| ==> Upper(r[i].status) == wanted
  {
    if trends == [] then []
    else (if Upper(trends[0].status) == wanted then [trends[0]] else []) + Select(trends[1..], wanted)
  }

  /** `up_trends`: the items whose status folds to `UP`. */
  function UpTrends(trends: seq<Trend>): seq<Trend>
  {
    Select(trends, "UP")
  }

  /** `down_trends`: the items whose status folds to `DOWN`. */
  function DownTrends(trends: seq<Trend>): seq<Trend>
  {
    Select(trends, "DOWN")
  }

  /** An item is selected exactly when it is in the list and its status folds to `wanted`. */
  lemma {:induction false} SelectMembership(trends: seq<Trend>, wanted: string, t: Trend)
    ensures t in Select(trends, wanted) <==> t in trends && Upper(t.status) == wanted
  {
    if trends != [] {
      SelectMembership(trends[1..], wanted, t);
      assert t in trends <==> t == trends[0] || t in trends[1..];
    }
  }

  /** Each selected item keeps its multiplicity; the others are dropped. */
  lemma {:induction false} SelectMultiplicity(trends: seq<Trend>, wanted: string, t: Trend)
    ensures multiset(Select(trends, wanted))[t] ==
      if Upper(t.status) == wanted then multiset(trends)[t] else 0
  {
    if trends != [] {
      SelectMultiplicity(trends[1..], wanted, t);
      assert trends == [trends[0]] + trends[1..];
    }
  }

  /** Selection distributes over concatenation: it keeps the items' relative order. */
  lemma {:induction false} SelectAppend(a: seq<Trend>, b: seq<Trend>, wanted: string)
    ensures Select(a + b, wanted) == Select(a, wanted) + Select(b, wanted)
  {
    if a == [] {
      assert a + b == b;
    } else {
      assert (a + b)[1..] == a[1..] + b;
      SelectAppend(a[1..], b, wanted);
    }
  }

  /** `a` can be obtained from `b` by deleting elements. */
  ghost predicate IsSubsequence(a: seq<Trend>, b: seq<Trend>)
    decreases |b|
  {
    if a == [] then true
    else if b == [] then false
    else (a[0] == b[0] && IsSubsequence(a[1..], b[1..])) || IsSubsequence(a, b[1..])
  }

  lemma {:induction false} SelectIsSubsequence(trends: seq<Trend>, wanted: string)
    ensures IsSubsequence(Select(trends, wanted), trends)
  {
    if trends != [] {
      SelectIsSubsequence(trends[1..], wanted);
      var s := Select(trends, wanted);
      if Upper(trends[0].status) == wanted {
        assert s[0] == trends[0] && s[1..] == Select(trends[1..], wanted);
      } else {
        assert s == Select(trends[1..], wanted);
      }
    }
  }

  /**
    The two columns never share an item, an item whose status is neither
    UP nor DOWN (after upper-casing) is in neither, and together they are
    a sub-multiset of the list.
   */
  lemma UpDownPartition(trends: seq<Trend>)
    ensures forall t :: !(t in UpTrends(trends) && t in DownTrends(trends))
    ensures forall t :: t in trends && Upper(t.status) != "UP" && Upper(t.status) != "DOWN" ==>
      t !in UpTrends(trends) && t !in DownTrends(trends)
    ensures multiset(UpTrends(trends)) + multiset(DownTrends(trends)) <= multiset(trends)
  {
    forall t ensures t in UpTrends(trends) <==> t in trends && Upper(t.status) == "UP" {
      SelectMembership(trends, "UP", t);
    }
    forall t ensures t in DownTrends(trends) <==> t in trends && Upper(t.status) == "DOWN" {
      SelectMembership(trends, "DOWN", t);
    }
    forall t ensures (multiset(UpTrends(trends)) + multiset(DownTrends(trends)))[t] <= multiset(trends)[t] {
      SelectMultiplicity(trends, "UP", t);
      SelectMultiplicity(trends, "DOWN", t);
    }
  }

  /** The statuses the UP column accepts: "UP" in any letter case, nothing else. */
  lemma UpStatuses(status: string)
    ensures Upper(status) == "UP" <==> status in ["UP", "Up", "uP", "up"]
  {
    if |status| == 2 {
      UpperAt(status, 0);
      UpperAt(status, 1);
      assert status == [status[0], status[1]];
    }
  }

  /** What the page shows: two columns of cards, or the "unavailable" error. */
  datatype Page = Cards(up: seq<Trend>, down: seq<Trend>) | Unavailable

  /** `if trends: ... else: st.error(...)`: a list is truthy exactly when it is non-empty. */
  function Render(trends: Option<seq<Trend>>): (p: Page)
    ensures p.Unavailable? <==> trends.None? || trends.value == []
    ensures p.Cards? ==> p.up == UpTrends(trends.value) && p.down == DownTrends(trends.value)
  {
    if trends.Some? && |trends.value| > 0 then Cards(UpTrends(trends.value), DownTrends(trends.value))
    else Unavailable
  }

  /** Prose around a bracketed span is dropped when it holds no `[` before and no `]` after. */
  lemma {:induction false} ExtractSpanFromProse(before: string, span: string, after: string)
    requires '[' !in before && ']' !in after
    requires |span| >= 2 && span[0] == '[' && span[|span| - 1] == ']'
    ensures ExtractSpan(before + span + after) == Some(span)
  {
    var text := before + span + after;
    assert text[|before|] == '[';
    assert text[|before| + |span| - 1] == ']';
    assert text[|before|..|before| + |span|] == span;
  }

  /** The list in the shape the variance prompt asks for, with prose on both sides. */
  lemma ExtractSpanExample()
    ensures var span := "[{\"p\":\"A\",\"v\":\"+10%\",\"s\":\"UP\",\"desc\":\"x\"}]";
      ExtractSpan("prefix noise " + span + " suffix noise") == Some(span)
  {
    var span := "[{\"p\":\"A\",\"v\":\"+10%\",\"s\":\"UP\",\"desc\":\"x\"}]";
    assert span[|span| - 1] == ']';
    ExtractSpanFromProse("prefix noise ", span, " suffix noise");
  }

  /**
    Greedy matching runs to the last `]` of the whole answer: a list
    followed by a bracketed citation yields a span that also holds the prose
    between them.
   */
  lemma GreedySpanTakesTrailingBracket()
    ensures ExtractSpan("[1] see [2]") == Some("[1] see [2]")
  {
    var text := "[1] see [2]";
    assert text[0] == '[';
    assert text[10] == ']';
    assert text[0..11] == text;
  }

  /** The page shows two empty columns, not the error, for a non-empty list whose statuses are neither UP nor DOWN. */
  lemma CardsWithoutTrends()
    ensures Render(Some([Trend("A", "B", "FLAT", "", "")])) == Cards([], [])
  {
    var t := Trend("A", "B", "FLAT", "", "");
    UpperAt("FLAT", 0);
    assert Upper(t.status) != "UP";
    assert Upper(t.status) != "DOWN";
  }
}
