/**
  Markdown links in an email body: one left-to-right scan that hands each
  `[label](url)` to a renderer and copies everything else, and the cap on the
  length of a body.
 */
module MarkdownLinks {
  import opened Prelude
  import opened Text

  /** A link in a text: `[` at `open`, `]` at `mid`, and `)` just before `end`. */
  datatype Span = Span(open: nat, mid: nat, end: nat)

  type Renderer = (string, string, string) -> string

  /** A character the address of a link stops at. */
  predicate StopsUrl(c: char) {
    c == ')' || IsSpace(c)
  }

  /** Where the address that starts at `i` stops. */
  function UrlEnd(text: string, i: nat): (e: nat)
    requires i <= |text|
    ensures i <= e <= |text|
    ensures forall k :: i <= k < e ==> !StopsUrl(text[k])
    ensures e < |text| ==> StopsUrl(text[e])
    decreases |text| - i
  {
    if i == |text| || StopsUrl(text[i]) then i else UrlEnd(text, i + 1)
  }

  /** A `]` at `index` that closes a non-empty label and is followed by `(`. */
  predicate Closes(text: string, index: nat, begun: Option<nat>)
    requires index < |text|
  {
    && text[index] == ']' && begun.Some? && index > begun.value + 1
    && index + 1 < |text| && text[index + 1] == '('
  }

  /** The links the scan finds from `index` on, when a label may have begun at `begun`. */
  function Scan(text: string, index: nat, begun: Option<nat>): seq<Span>
    requires index <= |text|
    decreases |text| - index
  {
    if index == |text| then []
    else if text[index] == '\n' then Scan(text, index + 1, None)
    else if text[index] == '[' && begun.None? then Scan(text, index + 1, Some(index))
    else if Closes(text, index, begun) then
      var end := UrlEnd(text, index + 2);
      if end == |text| then []
      else if end > index + 2 && text[end] == ')' then
        [Span(begun.value, index, end + 1)] + Scan(text, end + 1, None)
      else Scan(text, end, None)
    else if text[index] == ']' then Scan(text, index + 1, None)
    else Scan(text, index + 1, begun)
  }

  function Links(text: string): seq<Span> {
    Scan(text, 0, None)
  }

  /** A link as its reader sees it: a label without `]` or line break, an address without `)` or white space. */
  predicate IsLink(text: string, s: Span) {
    && s.open + 1 < s.mid && s.mid + 3 < s.end <= |text|
    && text[s.open] == '[' && text[s.mid] == ']' && text[s.mid + 1] == '(' && text[s.end - 1] == ')'
    && (forall k :: s.open < k < s.mid ==> text[k] != ']' && text[k] != '\n')
    && (forall k :: s.mid + 2 <= k < s.end - 1 ==> !StopsUrl(text[k]))
  }

  /** Links one after the other, from `from` on. */
  predicate Ordered(spans: seq<Span>, from: nat) {
    spans != [] ==> from <= spans[0].open <= spans[0].end && Ordered(spans[1..], spans[0].end)
  }

  function Label(text: string, s: Span): string
    requires IsLink(text, s)
  {
    text[s.open + 1..s.mid]
  }

  function Url(text: string, s: Span): string
    requires IsLink(text, s)
  {
    text[s.mid + 2..s.end - 1]
  }

  function Source(text: string, s: Span): string
    requires IsLink(text, s)
  {
    text[s.open..s.end]
  }

  predicate AreLinks(text: string, spans: seq<Span>, from: nat) {
    Ordered(spans, from) && forall s :: s in spans ==> IsLink(text, s)
  }

  /** The text from `from` on, with each link put through the renderer. */
  function Rendered(text: string, from: nat, spans: seq<Span>, render: Renderer): string
    requires from <= |text| && AreLinks(text, spans, from)
    decreases |spans|
  {
    if spans == [] then text[from..]
    else
      var s := spans[0];
      assert s in spans;
      text[from..s.open] + render(Label(text, s), Url(text, s), Source(text, s))
      + Rendered(text, s.end, spans[1..], render)
  }

  /** A label that may have begun before `index`. */
  predicate LabelRuns(text: string, index: nat, begun: Option<nat>) {
    && index <= |text|
    && (begun.Some? ==> begun.value < index && text[begun.value] == '[')
    && (begun.Some? ==> forall k :: begun.value < k < index ==> text[k] != ']' && text[k] != '\n')
  }

  function Begin(begun: Option<nat>, index: nat): nat {
    if begun.Some? then begun.value else index
  }

  /** Everything found is a link, and links do not overlap. */
  lemma {:induction false} ScanFindsLinks(text: string, index: nat, begun: Option<nat>)
    requires LabelRuns(text, index, begun)
    ensures AreLinks(text, Scan(text, index, begun), Begin(begun, index))
    decreases |text| - index
  {
    if index < |text| {
      if text[index] == '\n' {
        ScanFindsLinks(text, index + 1, None);
        OrderedFromEarlier(Scan(text, index + 1, None), index + 1, Begin(begun, index));
      } else if text[index] == '[' && begun.None? {
        ScanFindsLinks(text, index + 1, Some(index));
      } else if Closes(text, index, begun) {
        var end := UrlEnd(text, index + 2);
        if end < |text| && end > index + 2 && text[end] == ')' {
          ScanFindsLinks(text, end + 1, None);
          assert IsLink(text, Span(begun.value, index, end + 1));
        } else if end < |text| {
          ScanFindsLinks(text, end, None);
          OrderedFromEarlier(Scan(text, end, None), end, Begin(begun, index));
        }
      } else if text[index] == ']' {
        ScanFindsLinks(text, index + 1, None);
        OrderedFromEarlier(Scan(text, index + 1, None), index + 1, Begin(begun, index));
      } else {
        ScanFindsLinks(text, index + 1, begun);
        OrderedFromEarlier(Scan(text, index + 1, begun), Begin(begun, index + 1), Begin(begun, index));
      }
    }
  }

  lemma OrderedFromEarlier(spans: seq<Span>, from: nat, earlier: nat)
    requires Ordered(spans, from) && earlier <= from
    ensures Ordered(spans, earlier)
  {
  }

  lemma LinksAreLinks(text: string)
    ensures AreLinks(text, Links(text), 0)
  {
    ScanFindsLinks(text, 0, None);
  }

  /** What is rendered so far and what the scan has yet to find make up the whole result. */
  ghost predicate Progress(text: string, render: Renderer, done: string, kept: nat, index: nat, begun: Option<nat>) {
    && AreLinks(text, Links(text), 0)
    && LabelRuns(text, index, begun) && kept <= Begin(begun, index)
    && AreLinks(text, Scan(text, index, begun), kept)
    && Rendered(text, 0, Links(text), render) == done + Rendered(text, kept, Scan(text, index, begun), render)
  }

  lemma ProgressStart(text: string, render: Renderer)
    ensures AreLinks(text, Links(text), 0) && LabelRuns(text, 0, None) && Progress(text, render, "", 0, 0, None)
  {
    LinksAreLinks(text);
  }

  /** One character, or a broken address, is passed over. */
  lemma ProgressPast(
    text: string, render: Renderer, done: string, kept: nat, index: nat, begun: Option<nat>,
    next: nat, begun': Option<nat>)
    requires Progress(text, render, done, kept, index, begun)
    requires LabelRuns(text, next, begun') && kept <= Begin(begun', next)
    requires Scan(text, index, begun) == Scan(text, next, begun')
    ensures Progress(text, render, done, kept, next, begun')
  {
  }

  /** A link is rendered. */
  lemma ProgressLink(text: string, render: Renderer, done: string, kept: nat, index: nat, begun: Option<nat>, end: nat)
    requires Progress(text, render, done, kept, index, begun)
    requires begun.Some? && end < |text| && index <= end
    requires Scan(text, index, begun) == [Span(begun.value, index, end + 1)] + Scan(text, end + 1, None)
    ensures IsLink(text, Span(begun.value, index, end + 1))
    ensures Progress(text, render,
              done + text[kept..begun.value]
              + render(text[begun.value + 1..index], text[index + 2..end], text[begun.value..end + 1]),
              end + 1, end + 1, None)
  {
    hide IsLink, Scan, Rendered, Ordered;
    var s, rest := Span(begun.value, index, end + 1), Scan(text, end + 1, None);
    RenderedStep(text, kept, s, rest, render);
    var gap, link := text[kept..s.open], render(Label(text, s), Url(text, s), Source(text, s));
    var left := Rendered(text, s.end, rest, render);
    assert done + (gap + link + left) == done + gap + link + left;
  }

  /**
    The scan replaces exactly the links of `Links`, in no more turns of its
    loops than the text is long.
   */
  method ReplaceMarkdownLinks(text: string, render: Renderer) returns (result: string, ghost turns: nat)
    ensures AreLinks(text, Links(text), 0)
    ensures result == Rendered(text, 0, Links(text), render)
    ensures turns <= |text|
  {
    hide AreLinks, Scan, Rendered, UrlEnd, StopsUrl, Progress, LabelRuns, Links;
    ProgressStart(text, render);
    var done: string := "";
    var found := false;
    var begun: Option<nat> := None;
    var kept, index := 0, 0;
    turns := 0;
    while index < |text|
      invariant Progress(text, render, done, kept, index, begun) && kept <= Begin(begun, index) <= index <= |text|
      invariant LabelRuns(text, index, begun)
      invariant !found ==> done == "" && kept == 0
      invariant turns <= index
      decreases |text| - index
    {
      ScanStep(text, index, begun);
      turns := turns + 1;
      var c := text[index];
      ghost var before := begun;
      LabelStep(text, index, begun);
      if c == '\n' {
        begun := None;
      } else if c == '[' && begun.None? {
        begun := Some(index);
      } else if Closes(text, index, begun) {
        var end := index + 2;
        while end < |text| && !StopsUrl(text[end])
          invariant index + 2 <= end <= |text|
          invariant UrlEnd(text, index + 2) == UrlEnd(text, end)
          invariant turns < end
        {
          UrlEndStep(text, end);
          end := end + 1;
          turns := turns + 1;
        }
        UrlEndStep(text, end);
        LabelStep(text, end, None);
        if end < |text| && end > index + 2 && text[end] == ')' {
          ProgressLink(text, render, done, kept, index, begun, end);
          done := done + text[kept..begun.value]
          + render(text[begun.value + 1..index], text[index + 2..end], text[begun.value..end + 1]);
          index, kept, begun, found := end + 1, end + 1, None, true;
          continue;
        }
        if end == |text| {
          break;
        }
        ProgressPast(text, render, done, kept, index, begun, end, None);
        index, begun := end, None;
        continue;
      } else if c == ']' {
        begun := None;
      }
      ProgressPast(text, render, done, kept, index, before, index + 1, begun);
      index := index + 1;
    }
    NothingLeft(text, render, done, kept, index, begun);
    result := if found then done + text[kept..] else text;
  }

  lemma LabelStep(text: string, index: nat, begun: Option<nat>)
    requires index <= |text|
    ensures LabelRuns(text, index, None)
    ensures index < |text| ==> LabelRuns(text, index + 1, None)
    ensures index < |text| && text[index] == '[' ==> LabelRuns(text, index + 1, Some(index))
    ensures LabelRuns(text, index, begun) && index < |text| && text[index] != ']' && text[index] != '\n' ==>
              LabelRuns(text, index + 1, begun)
  {
  }

  lemma UrlEndStep(text: string, i: nat)
    requires i <= |text|
    ensures UrlEnd(text, i) == if i == |text| || StopsUrl(text[i]) then i else UrlEnd(text, i + 1)
  {
  }

  lemma NothingLeft(text: string, render: Renderer, done: string, kept: nat, index: nat, begun: Option<nat>)
    requires Progress(text, render, done, kept, index, begun)
    requires index == |text| || Scan(text, index, begun) == []
    ensures kept <= |text| && Rendered(text, 0, Links(text), render) == done + text[kept..]
  {
  }

  lemma ScanStep(text: string, index: nat, begun: Option<nat>)
    requires LabelRuns(text, index, begun) && index < |text|
    ensures text[index] == '\n' ==> Scan(text, index, begun) == Scan(text, index + 1, None)
    ensures text[index] == '[' && begun.None? ==> Scan(text, index, begun) == Scan(text, index + 1, Some(index))
    ensures Closes(text, index, begun) ==>
              var end := UrlEnd(text, index + 2);
              Scan(text, index, begun) ==
                if end == |text| then []
                else if end > index + 2 && text[end] == ')' then
                  [Span(begun.value, index, end + 1)] + Scan(text, end + 1, None)
                else Scan(text, end, None)
    ensures text[index] == ']' && !Closes(text, index, begun) ==>
              Scan(text, index, begun) == Scan(text, index + 1, None)
    ensures text[index] != '\n' && text[index] != ']' && (text[index] == '[' ==> begun.Some?) ==>
              Scan(text, index, begun) == Scan(text, index + 1, begun)
  {
  }

  lemma RenderedStep(text: string, from: nat, s: Span, rest: seq<Span>, render: Renderer)
    requires AreLinks(text, [s] + rest, from)
    ensures from <= s.open && IsLink(text, s) && AreLinks(text, rest, s.end)
    ensures Rendered(text, from, [s] + rest, render) ==
              text[from..s.open] + render(Label(text, s), Url(text, s), Source(text, s))
              + Rendered(text, s.end, rest, render)
  {
  }

  /** Rendering each link as it stands gives the text back. */
  lemma {:induction false} RenderingSourcesIsIdentity(text: string, from: nat, spans: seq<Span>, render: Renderer)
    requires from <= |text| && AreLinks(text, spans, from)
    requires forall l, u, s :: render(l, u, s) == s
    ensures Rendered(text, from, spans, render) == text[from..]
    decreases |spans|
  {
    if spans != [] {
      var s := spans[0];
      assert s in spans;
      RenderingSourcesIsIdentity(text, s.end, spans[1..], render);
      assert text[from..] == text[from..s.open] + text[s.open..s.end] + text[s.end..];
    }
  }

  lemma ScanIsLossless(text: string)
    ensures AreLinks(text, Links(text), 0)
    ensures Rendered(text, 0, Links(text), (l, u, s) => s) == text
  {
    LinksAreLinks(text);
    RenderingSourcesIsIdentity(text, 0, Links(text), (l, u, s) => s);
  }

  /** A link's source is its label in brackets and its address in parentheses. */
  lemma SourceIsMadeOf(text: string, s: Span)
    requires IsLink(text, s)
    ensures Source(text, s) == "[" + Label(text, s) + "](" + Url(text, s) + ")"
  {
    assert text[s.open..s.open + 1] == "[" && text[s.mid..s.mid + 2] == "](" && text[s.end - 1..s.end] == ")";
    assert Source(text, s) == text[s.open..s.open + 1] + text[s.open + 1..s.mid] + text[s.mid..s.mid + 2]
                              + text[s.mid + 2..s.end - 1] + text[s.end - 1..s.end];
  }

  /** So the renderer is given label and address in this order: putting them together again gives the text back. */
  lemma {:induction false} RebuildingIsIdentity(text: string, from: nat, spans: seq<Span>, render: Renderer)
    requires from <= |text| && AreLinks(text, spans, from)
    requires forall l, u, s :: render(l, u, s) == "[" + l + "](" + u + ")"
    ensures Rendered(text, from, spans, render) == text[from..]
    decreases |spans|
  {
    if spans != [] {
      var s := spans[0];
      assert s in spans;
      SourceIsMadeOf(text, s);
      RebuildingIsIdentity(text, s.end, spans[1..], render);
      hide IsLink, Label, Url, Ordered;
      assert text[from..] == text[from..s.open] + text[s.open..s.end] + text[s.end..];
    }
  }

  /** Where the scan finds a `](` that ends a label it has begun, and so reads an address. */
  function Closings(text: string, index: nat, begun: Option<nat>): seq<nat>
    requires index <= |text|
    decreases |text| - index
  {
    if index == |text| then []
    else if text[index] == '\n' then Closings(text, index + 1, None)
    else if text[index] == '[' && begun.None? then Closings(text, index + 1, Some(index))
    else if Closes(text, index, begun) then
      var end := UrlEnd(text, index + 2);
      if end == |text| then [index]
      else if end > index + 2 && text[end] == ')' then [index] + Closings(text, end + 1, None)
      else [index] + Closings(text, end, None)
    else if text[index] == ']' then Closings(text, index + 1, None)
    else Closings(text, index + 1, begun)
  }

  /** The place is inside an address that the scan reads after one of these closings. */
  ghost predicate InAddress(text: string, closings: seq<nat>, at: nat) {
    exists q :: q in closings && q + 2 <= at && q + 2 <= |text| && at < UrlEnd(text, q + 2)
  }

  /** The scan came to a label that ends where the link's label ends. */
  ghost predicate Reports(spans: seq<Span>, l: Span) {
    exists s :: s in spans && s.open <= l.open && s.mid == l.mid && s.end == l.end
  }

  lemma NoneAtEnd(text: string, begun: Option<nat>)
    ensures Closings(text, |text|, begun) == []
  {
  }

  lemma ClosingStep(text: string, index: nat, begun: Option<nat>)
    requires LabelRuns(text, index, begun) && index < |text|
    ensures text[index] == '\n' ==> Closings(text, index, begun) == Closings(text, index + 1, None)
    ensures text[index] == '[' && begun.None? ==> Closings(text, index, begun) == Closings(text, index + 1, Some(index))
    ensures Closes(text, index, begun) ==>
              var end := UrlEnd(text, index + 2);
              Closings(text, index, begun) ==
                if end == |text| then [index]
                else if end > index + 2 && text[end] == ')' then [index] + Closings(text, end + 1, None)
                else [index] + Closings(text, end, None)
    ensures text[index] == ']' && !Closes(text, index, begun) ==>
              Closings(text, index, begun) == Closings(text, index + 1, None)
    ensures text[index] != '\n' && text[index] != ']' && (text[index] == '[' ==> begun.Some?) ==>
              Closings(text, index, begun) == Closings(text, index + 1, begun)
  {
  }

  lemma BracketIsInUrl()
    ensures !StopsUrl('[')
  {
  }

  lemma {:induction false} ScanReports(text: string, index: nat, begun: Option<nat>, l: Span)
    requires LabelRuns(text, index, begun) && IsLink(text, l) && !InAddress(text, Closings(text, index, begun), l.open)
    requires index <= l.open || (begun.Some? && begun.value <= l.open && index <= l.mid)
    ensures Reports(Scan(text, index, begun), l)
    decreases |text| - index
  {
    hide Scan, Closings, UrlEnd, IsSpace, Ordered;
    ScanStep(text, index, begun);
    ClosingStep(text, index, begun);
    if text[index] == '\n' {
      ScanReports(text, index + 1, None, l);
    } else if text[index] == '[' && begun.None? {
      ScanReports(text, index + 1, Some(index), l);
    } else if Closes(text, index, begun) {
      var end := UrlEnd(text, index + 2);
      if index == l.mid {
        assert end == l.end - 1;
        assert Span(begun.value, index, end + 1) in Scan(text, index, begun);
      } else {
        var closings := Closings(text, index, begun);
        BracketIsInUrl();
        assert index in closings && index + 2 <= l.open;
        assert end < l.open;
        assert forall q :: q in closings[1..] ==> q in closings;
        if end > index + 2 && text[end] == ')' {
          ScanReports(text, end + 1, None, l);
          assert forall s :: s in Scan(text, end + 1, None) ==> s in Scan(text, index, begun);
        } else {
          ScanReports(text, end, None, l);
        }
      }
    } else if text[index] == ']' {
      ScanReports(text, index + 1, None, l);
    } else {
      ScanReports(text, index + 1, begun, l);
    }
  }

  /** What the scan has begun or passed lies behind its closings; no link it finds reaches over an address it read. */
  lemma {:induction false} AddressesHideLinks(text: string, index: nat, begun: Option<nat>, q: nat, s: Span)
    requires LabelRuns(text, index, begun)
    requires q in Closings(text, index, begun) && s in Scan(text, index, begun)
    ensures index <= q && q + 2 <= |text| && index <= s.mid
    ensures s.mid <= q || UrlEnd(text, q + 2) <= s.open
    decreases |text| - index
  {
    hide Scan, Closings, UrlEnd, IsSpace, Ordered;
    NoneAtEnd(text, begun);
    ScanStep(text, index, begun);
    ClosingStep(text, index, begun);
    if text[index] == '\n' {
      AddressesHideLinks(text, index + 1, None, q, s);
    } else if text[index] == '[' && begun.None? {
      AddressesHideLinks(text, index + 1, Some(index), q, s);
    } else if Closes(text, index, begun) {
      var end := UrlEnd(text, index + 2);
      var next := if end > index + 2 && text[end] == ')' then end + 1 else end;
      ScanFindsLinks(text, next, None);
      OrderedBounds(Scan(text, next, None), next);
      if q != index && s in Scan(text, next, None) {
        AddressesHideLinks(text, next, None, q, s);
      }
      if q != index { ClosingsAhead(text, next, None, q); }
    } else if text[index] == ']' {
      AddressesHideLinks(text, index + 1, None, q, s);
    } else {
      AddressesHideLinks(text, index + 1, begun, q, s);
    }
  }

  lemma {:induction false} ClosingsAhead(text: string, index: nat, begun: Option<nat>, q: nat)
    requires LabelRuns(text, index, begun) && q in Closings(text, index, begun)
    ensures index <= q && q + 2 <= |text|
    decreases |text| - index
  {
    hide Closings, UrlEnd, IsSpace;
    NoneAtEnd(text, begun);
    ClosingStep(text, index, begun);
    if text[index] == '\n' {
      ClosingsAhead(text, index + 1, None, q);
    } else if text[index] == '[' && begun.None? {
      ClosingsAhead(text, index + 1, Some(index), q);
    } else if Closes(text, index, begun) {
      if q != index {
        var end := UrlEnd(text, index + 2);
        ClosingsAhead(text, if end > index + 2 && text[end] == ')' then end + 1 else end, None, q);
      }
    } else if text[index] == ']' {
      ClosingsAhead(text, index + 1, None, q);
    } else {
      ClosingsAhead(text, index + 1, begun, q);
    }
  }

  lemma {:induction false} OrderedBounds(spans: seq<Span>, from: nat)
    requires Ordered(spans, from)
    ensures forall s :: s in spans ==> from <= s.open
  {
    if spans != [] {
      OrderedBounds(spans[1..], spans[0].end);
      assert spans == [spans[0]] + spans[1..];
    }
  }

  /**
    A link is rendered, with a label that begins where it begins or at an earlier
    `[`, exactly when it does not begin inside an address the scan has read.
   */
  lemma LinkReportedIff(text: string, l: Span)
    requires IsLink(text, l)
    ensures Reports(Links(text), l) <==> !InAddress(text, Closings(text, 0, None), l.open)
  {
    if !InAddress(text, Closings(text, 0, None), l.open) {
      ScanReports(text, 0, None, l);
    } else {
      var q :| q in Closings(text, 0, None) && q + 2 <= l.open && q + 2 <= |text| && l.open < UrlEnd(text, q + 2);
      forall s | s in Links(text) ensures !(s.open <= l.open && s.mid == l.mid && s.end == l.end) {
        AddressesHideLinks(text, 0, None, q, s);
      }
    }
  }

  /** A link that begins inside an address cut off by white space goes unnoticed. */
  lemma LinkInBrokenAddressIsMissed()
    ensures IsLink("[a](x[b c](d)", Span(5, 9, 13)) && Links("[a](x[b c](d)") == []
  {
  }

  /* ----- the cap on a body ----- */

  const MAX_TEXT_LENGTH := 100_000

  const TRUNCATION_SUFFIX := "\n\n[message truncated]"

  const FOOTER_PREFIX := ":::roomote-footer "

  function FinalLineStart(s: string): (n: nat)
    ensures n <= |s| && (n > 0 ==> s[n - 1] == '\n') && forall k :: n <= k < |s| ==> s[k] != '\n'
  {
    if s == [] || s[|s| - 1] == '\n' then |s| else FinalLineStart(s[..|s| - 1])
  }

  function FinalLine(s: string): string {
    s[FinalLineStart(s)..]
  }

  predicate HasFooter(s: string) {
    FOOTER_PREFIX <= FinalLine(s)
  }

  function Truncate(s: string): string {
    var footer := FinalLine(s);
    var room := MAX_TEXT_LENGTH - |TRUNCATION_SUFFIX| - 2 - |footer|;
    if |s| <= MAX_TEXT_LENGTH then s
    else if HasFooter(s) && room >= 0 then s[..room] + TRUNCATION_SUFFIX + "\n\n" + footer
    else s[..MAX_TEXT_LENGTH - |TRUNCATION_SUFFIX|] + TRUNCATION_SUFFIX
  }

  lemma FinalLineIs(s: string, head: string, line: string)
    requires s == head + "\n" + line && '\n' !in line
    ensures FinalLine(s) == line
  {
    var n := FinalLineStart(s);
    assert s[|head|] == '\n';
    assert forall k :: |head| < k < |s| ==> s[k] == line[k - |head| - 1];
    assert n == |head| + 1;
    assert s[|head| + 1..] == line;
  }

  /** A body within the cap is left alone, and one above it is cut to the cap exactly. */
  lemma TruncateLength(s: string)
    ensures |s| <= MAX_TEXT_LENGTH ==> Truncate(s) == s
    ensures |s| > MAX_TEXT_LENGTH ==> |Truncate(s)| == MAX_TEXT_LENGTH
  {
  }

  /** What is cut short is the body's own beginning, followed by the notice. */
  lemma TruncateKeepsBeginning(s: string) returns (n: nat)
    requires |s| > MAX_TEXT_LENGTH
    ensures n <= |s| && s[..n] + "\n\n[message truncated]" <= Truncate(s)
    ensures n + 21 <= |Truncate(s)| <= n + 23 + |FinalLine(s)|
  {
    hide FinalLineStart;
    var footer := FinalLine(s);
    var room := MAX_TEXT_LENGTH - |TRUNCATION_SUFFIX| - 2 - |footer|;
    if HasFooter(s) && room >= 0 {
      n := room;
      assert s[..room] + TRUNCATION_SUFFIX <= Truncate(s);
    } else {
      n := MAX_TEXT_LENGTH - |TRUNCATION_SUFFIX|;
      assert s[..n] + TRUNCATION_SUFFIX <= Truncate(s);
    }
  }

  /**
    A body cut short still ends in its own footer exactly when that footer, the
    notice and the blank line between them fit.
   */
  lemma TruncateKeepsFooterIff(s: string)
    requires |s| > MAX_TEXT_LENGTH && HasFooter(s)
    ensures FinalLine(Truncate(s)) == FinalLine(s) <==> |FinalLine(s)| + |TRUNCATION_SUFFIX| + 2 <= MAX_TEXT_LENGTH
  {
    hide FinalLineStart;
    var footer, t := FinalLine(s), Truncate(s);
    var room := MAX_TEXT_LENGTH - |TRUNCATION_SUFFIX| - 2 - |footer|;
    assert '\n' !in footer;
    if room >= 0 {
      var head := s[..room] + TRUNCATION_SUFFIX + "\n";
      assert t == head + "\n" + footer;
      FinalLineIs(t, head, footer);
    } else {
      var head := s[..MAX_TEXT_LENGTH - |TRUNCATION_SUFFIX|] + "\n";
      assert t == head + "\n" + "[message truncated]";
      FinalLineIs(t, head, "[message truncated]");
    }
  }
}
