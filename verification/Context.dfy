/**
 Bounded views of a conversation: projecting items, keeping a raw tail and
 referring to the rest by digest, and materialising a request from a stored
 reduction that must still agree with the items it was made from.
 */
module Context {
  import opened Prelude
  import opened Strings

  const MAX_CONTEXT_VIEW_BYTES: nat := 512 * 1024
  const MAX_CONTEXT_VIEW_ITEMS: nat := 4096
  const MAX_ITEM_TEXT_BYTES: nat := 1024 * 1024

  /** Text with its UTF-8 length and its digest; nothing is assumed of the digest. */
  datatype RawText = Text(content: string, bytes: nat, digest: nat)

  predicate ValidText(t: RawText) {
    !Blank(t.content) && t.bytes == Utf8Length(t.content) && t.bytes <= MAX_ITEM_TEXT_BYTES
  }

  type Text = t: RawText | ValidText(t) witness SampleText()

  function SampleText(): (t: RawText)
    ensures ValidText(t)
  {
    assert !IsSpace("x"[0]);
    RawText.Text("x", Utf8Length("x"), 0)
  }

  type Id = x: nat | 1 <= x <= U64_MAX witness 1

  datatype Role = User | Assistant

  datatype Item = Item(id: Id, turn: Id, role: Role, text: Text)

  datatype Head = Head(transaction: U64, sequence: U64)

  /** The range of ledger events a view was made from. */
  datatype Range = Range(first: Option<U64>, last: Option<U64>, transaction: U64)

  function RangeOf(head: Head): Range {
    if head.sequence == 0 then Range(None, None, 0) else Range(Some(1), Some(head.sequence), head.transaction)
  }

  function HeadOf(range: Range): Head {
    Head(range.transaction, if range.last.Some? then range.last.value else 0)
  }

  datatype ViewItem = ViewItem(item: Id, turn: Id, role: Role, text: Text, tokens: U64)

  datatype ArtifactRef = ArtifactRef(item: Id, turn: Id, role: Role, bytes: U64, tokens: U64, digest: nat)

  datatype View = View(source: Range, items: seq<ViewItem>, rawBytes: nat, tokens: nat)

  datatype Reduced = Reduced(source: Range, artifacts: seq<ArtifactRef>, recent: seq<ViewItem>, rawBytes: nat, tokens: U64)

  datatype RequestView = RequestView(source: Range, archived: nat, items: seq<ViewItem>, rawBytes: nat, tokens: nat)

  datatype Policy = Policy(maxBytes: nat, maxItems: nat)

  datatype ViewError = TooManyItems | ViewTooLarge | ArithmeticOverflow | InvalidReductionPolicy | ArtifactMismatch | InvalidStoredView

  predicate ValidPolicy(p: Policy) {
    0 < p.maxBytes <= MAX_CONTEXT_VIEW_BYTES && 0 < p.maxItems <= MAX_CONTEXT_VIEW_ITEMS
  }

  // ---------- projections ----------

  /** A quarter of the characters, rounded up, at least one. */
  function Project(item: Item): (view: ViewItem)
    ensures 1 <= view.tokens <= item.text.bytes && 4 * view.tokens >= |item.text.content|
  {
    var tokens := (|item.text.content| + 3) / 4;
    ViewItem(item.id, item.turn, item.role, item.text, if tokens < 1 then 1 else tokens)
  }

  function ProjectAll(items: seq<Item>): (views: seq<ViewItem>)
    ensures |views| == |items|
    ensures forall i :: 0 <= i < |items| ==> views[i] == Project(items[i])
  {
    seq(|items|, i requires 0 <= i < |items| => Project(items[i]))
  }

  function Refer(view: ViewItem): ArtifactRef {
    ArtifactRef(view.item, view.turn, view.role, view.text.bytes, view.tokens, view.text.digest)
  }

  function ReferAll(views: seq<ViewItem>): (refs: seq<ArtifactRef>)
    ensures |refs| == |views|
    ensures forall i :: 0 <= i < |views| ==> refs[i] == Refer(views[i])
  {
    seq(|views|, i requires 0 <= i < |views| => Refer(views[i]))
  }

  function Bytes(views: seq<ViewItem>): nat {
    if |views| == 0 then 0 else Bytes(views[..|views| - 1]) + views[|views| - 1].text.bytes
  }

  function Tokens(views: seq<ViewItem>): nat {
    if |views| == 0 then 0 else Tokens(views[..|views| - 1]) + views[|views| - 1].tokens
  }

  function RefTokens(refs: seq<ArtifactRef>): nat {
    if |refs| == 0 then 0 else RefTokens(refs[..|refs| - 1]) + refs[|refs| - 1].tokens
  }

  predicate Increasing(items: seq<Item>) {
    forall i, j :: 0 <= i < j < |items| ==> items[i].id < items[j].id
  }

  lemma {:induction false} SumsSplit(views: seq<ViewItem>, k: nat)
    requires k <= |views|
    ensures Bytes(views) == Bytes(views[..k]) + Bytes(views[k..])
    ensures Tokens(views) == Tokens(views[..k]) + Tokens(views[k..])
    decreases |views|
  {
    if k == |views| {
      assert views[..k] == views && views[k..] == [];
    } else {
      var init := views[..|views| - 1];
      SumsSplit(init, k);
      assert init[..k] == views[..k] && init[k..] == views[k..][..|views| - k - 1];
    }
  }

  lemma {:induction false} RefTokensMatch(views: seq<ViewItem>)
    ensures RefTokens(ReferAll(views)) == Tokens(views)
    decreases |views|
  {
    if |views| > 0 {
      RefTokensMatch(views[..|views| - 1]);
      assert ReferAll(views)[..|views| - 1] == ReferAll(views[..|views| - 1]);
    }
  }

  lemma {:induction false} TokensBounded(items: seq<Item>)
    ensures Tokens(ProjectAll(items)) <= |items| * MAX_ITEM_TEXT_BYTES
    decreases |items|
  {
    if |items| > 0 {
      TokensBounded(items[..|items| - 1]);
      assert ProjectAll(items)[..|items| - 1] == ProjectAll(items[..|items| - 1]);
    }
  }

  // ---------- the full view ----------

  /** Where the projection loop stands after `i` items. */
  datatype Progress = Progress(last: nat, rawBytes: nat, tokens: nat)

  function Advance(items: seq<Item>, i: nat): Result<Progress, ViewError>
    requires i <= |items|
  {
    if i == 0 then Ok(Progress(0, 0, 0))
    else
      var p :- Advance(items, i - 1);
      var item := items[i - 1];
      if item.id <= p.last then Err(InvalidStoredView)
      else if p.rawBytes + item.text.bytes > MAX_CONTEXT_VIEW_BYTES then Err(ViewTooLarge)
      else Ok(Progress(item.id, p.rawBytes + item.text.bytes, p.tokens + Project(item).tokens))
  }

  function FromItems(head: Head, items: seq<Item>): Result<View, ViewError> {
    if |items| > MAX_CONTEXT_VIEW_ITEMS then Err(TooManyItems)
    else
      var p :- Advance(items, |items|);
      Ok(View(RangeOf(head), ProjectAll(items), p.rawBytes, p.tokens))
  }

  /** The loop, with its running totals. */
  method BuildView(head: Head, items: seq<Item>) returns (r: Result<View, ViewError>)
    ensures r == FromItems(head, items)
  {
    if |items| > MAX_CONTEXT_VIEW_ITEMS {
      return Err(TooManyItems);
    }
    var projected: seq<ViewItem> := [];
    var last: nat, rawBytes: nat, tokens: nat := 0, 0, 0;
    for i := 0 to |items|
      invariant Advance(items, i) == Ok(Progress(last, rawBytes, tokens))
      invariant projected == ProjectAll(items[..i])
    {
      var item := items[i];
      AdvanceFails(items, i + 1);
      if item.id <= last {
        return Err(InvalidStoredView);
      }
      last := item.id;
      if rawBytes + item.text.bytes > MAX_CONTEXT_VIEW_BYTES {
        return Err(ViewTooLarge);
      }
      rawBytes := rawBytes + item.text.bytes;
      var view := Project(item);
      tokens := tokens + view.tokens;
      projected := projected + [view];
      assert items[..i + 1][..i] == items[..i];
    }
    assert items[..|items|] == items;
    return Ok(View(RangeOf(head), projected, rawBytes, tokens));
  }

  lemma {:induction false} AdvanceFails(items: seq<Item>, i: nat)
    requires i <= |items|
    ensures Advance(items, i).Err? ==> Advance(items, |items|) == Err(Advance(items, i).error)
    decreases |items| - i
  {
    if i < |items| {
      AdvanceFails(items, i + 1);
    }
  }

  lemma AdvanceStep(items: seq<Item>, i: nat)
    requires i < |items|
    ensures Advance(items, i).Err? ==> Advance(items, i + 1).Err?
    ensures Advance(items, i).Ok? ==>
              var p := Advance(items, i).value;
              Advance(items, i + 1)
              == if items[i].id <= p.last then Err(InvalidStoredView)
                 else if p.rawBytes + items[i].text.bytes > MAX_CONTEXT_VIEW_BYTES then Err(ViewTooLarge)
                 else Ok(Progress(items[i].id, p.rawBytes + items[i].text.bytes, p.tokens + Project(items[i]).tokens))
  {
    hide Project;
  }

  // Facts about the first `k` items.

  predicate IncreasingTo(items: seq<Item>, k: nat)
    requires k <= |items|
  {
    Increasing(items[..k])
  }

  function BytesTo(items: seq<Item>, k: nat): nat
    requires k <= |items|
  {
    Bytes(ProjectAll(items[..k]))
  }

  function TokensTo(items: seq<Item>, k: nat): nat
    requires k <= |items|
  {
    Tokens(ProjectAll(items[..k]))
  }

  function LastTo(items: seq<Item>, k: nat): nat
    requires k <= |items|
  {
    if k == 0 then 0 else items[k - 1].id
  }

  lemma NoneYet(items: seq<Item>)
    ensures IncreasingTo(items, 0) && BytesTo(items, 0) == 0 && TokensTo(items, 0) == 0 && LastTo(items, 0) == 0
  {
    assert ProjectAll(items[..0]) == [];
  }

  lemma OneMore(items: seq<Item>, k: nat)
    requires k < |items|
    ensures IncreasingTo(items, k + 1) <==> IncreasingTo(items, k) && LastTo(items, k) < items[k].id
    ensures BytesTo(items, k + 1) == BytesTo(items, k) + items[k].text.bytes
    ensures TokensTo(items, k + 1) == TokensTo(items, k) + Project(items[k]).tokens && LastTo(items, k + 1) == items[k].id
  {
    IncreasingNext(items, k);
    TokensNext(items, k);
    hide Increasing, Bytes, Tokens, ProjectAll, Project;
  }

  lemma {:induction false} AdvanceMeans(items: seq<Item>, i: nat)
    requires i <= |items|
    ensures Advance(items, i).Ok? <==> IncreasingTo(items, i) && BytesTo(items, i) <= MAX_CONTEXT_VIEW_BYTES
    ensures Advance(items, i).Ok? ==> Advance(items, i).value == Progress(LastTo(items, i), BytesTo(items, i), TokensTo(items, i))
    decreases i
  {
    hide IncreasingTo, BytesTo, TokensTo, LastTo, Advance, Project;
    if i == 0 {
      NoneYet(items);
      AdvanceStart(items);
    } else {
      AdvanceStep(items, i - 1);
      AdvanceMeans(items, i - 1);
      OneMore(items, i - 1);
    }
  }

  lemma AdvanceStart(items: seq<Item>)
    ensures Advance(items, 0) == Ok(Progress(0, 0, 0))
  {
  }

  /** A view exists exactly for at most 4096 items of strictly rising identifiers and at most 512 KiB of text. */
  lemma ViewAccepted(head: Head, items: seq<Item>)
    ensures FromItems(head, items).Ok? <==>
              |items| <= MAX_CONTEXT_VIEW_ITEMS && Increasing(items) && Bytes(ProjectAll(items)) <= MAX_CONTEXT_VIEW_BYTES
    ensures FromItems(head, items).Ok? ==>
              FromItems(head, items).value == View(RangeOf(head), ProjectAll(items), Bytes(ProjectAll(items)), Tokens(ProjectAll(items)))
  {
    AdvanceMeans(items, |items|);
    assert items[..|items|] == items;
    hide Advance, Increasing, Bytes, Tokens, ProjectAll;
  }

  // ---------- the raw tail ----------

  predicate TailFits(views: seq<ViewItem>, start: nat, policy: Policy)
    requires start <= |views|
  {
    |views| - start <= policy.maxItems && Bytes(views[start..]) <= policy.maxBytes
  }

  /** The start of the raw tail: from `from` leftwards while both limits hold. */
  function TailFrom(views: seq<ViewItem>, from: nat, policy: Policy): (start: nat)
    requires from <= |views|
    ensures start <= from
  {
    if from == 0 || !TailFits(views, from - 1, policy) then from else TailFrom(views, from - 1, policy)
  }

  function RecentStart(views: seq<ViewItem>, policy: Policy): (start: nat)
    ensures start <= |views|
  {
    TailFrom(views, |views|, policy)
  }

  lemma BytesCons(views: seq<ViewItem>, i: nat)
    requires i < |views|
    ensures Bytes(views[i..]) == views[i].text.bytes + Bytes(views[i + 1..])
  {
    SumsSplit(views[i..], 1);
    assert views[i..][..1] == [views[i]] && views[i..][1..] == views[i + 1..];
    assert [views[i]][..0] == [];
    assert Bytes([views[i]]) == views[i].text.bytes;
  }

  /** The backwards loop over the items. */
  method FindRecentStart(views: seq<ViewItem>, policy: Policy) returns (start: nat, rawBytes: nat)
    ensures start == RecentStart(views, policy) && rawBytes == Bytes(views[start..])
  {
    start := |views|;
    rawBytes := 0;
    assert views[start..] == [];
    while start > 0
      invariant start <= |views| && rawBytes == Bytes(views[start..])
      invariant RecentStart(views, policy) == TailFrom(views, start, policy)
    {
      var index := start - 1;
      BytesCons(views, index);
      if |views| - index > policy.maxItems {
        break;
      }
      var next := rawBytes + views[index].text.bytes;
      if next > policy.maxBytes {
        break;
      }
      start, rawBytes := index, next;
    }
  }

  lemma {:induction false} TailShrinks(views: seq<ViewItem>, a: nat, b: nat, policy: Policy)
    requires a <= b <= |views| && TailFits(views, a, policy)
    ensures TailFits(views, b, policy)
    decreases b - a
  {
    if a < b {
      BytesCons(views, a);
      TailShrinks(views, a + 1, b, policy);
    }
  }

  lemma {:induction false} TailFromLongest(views: seq<ViewItem>, from: nat, policy: Policy)
    requires from <= |views| && TailFits(views, from, policy)
    ensures TailFits(views, TailFrom(views, from, policy), policy)
    ensures TailFrom(views, from, policy) > 0 ==> !TailFits(views, TailFrom(views, from, policy) - 1, policy)
    decreases from
  {
    if from > 0 && TailFits(views, from - 1, policy) {
      TailFromLongest(views, from - 1, policy);
    }
  }

  /** The tail kept raw is the longest suffix that meets both the item and the byte limit. */
  lemma RecentStartIsLongest(views: seq<ViewItem>, policy: Policy)
    ensures TailFits(views, RecentStart(views, policy), policy)
    ensures forall k :: 0 <= k <= |views| && TailFits(views, k, policy) ==> RecentStart(views, policy) <= k
  {
    assert views[|views|..] == [];
    TailFromLongest(views, |views|, policy);
    var start := RecentStart(views, policy);
    forall k | 0 <= k <= |views| && TailFits(views, k, policy)
      ensures start <= k
    {
      if k < start {
        TailShrinks(views, k, start - 1, policy);
      }
    }
  }

  // ---------- reductions ----------

  function Reduce(view: View, policy: Policy): Reduced
    requires view.tokens <= U64_MAX
  {
    var start := RecentStart(view.items, policy);
    Reduced(view.source, ReferAll(view.items[..start]), view.items[start..], Bytes(view.items[start..]), view.tokens)
  }

  /** Position, identifier and totals after reading a stored reduction up to some entry. */
  function ReadArtifacts(refs: seq<ArtifactRef>, i: nat): Result<Progress, ViewError>
    requires i <= |refs|
  {
    if i == 0 then Ok(Progress(0, 0, 0))
    else
      var p :- ReadArtifacts(refs, i - 1);
      if refs[i - 1].item <= p.last then Err(InvalidStoredView)
      else if p.tokens + refs[i - 1].tokens > U64_MAX then Err(ArithmeticOverflow)
      else Ok(Progress(refs[i - 1].item, 0, p.tokens + refs[i - 1].tokens))
  }

  function ReadRecent(start: Progress, views: seq<ViewItem>, i: nat): Result<Progress, ViewError>
    requires i <= |views|
  {
    if i == 0 then Ok(start)
    else
      var p :- ReadRecent(start, views, i - 1);
      var view := views[i - 1];
      if view.item <= p.last then Err(InvalidStoredView)
      else if p.rawBytes + view.text.bytes > U64_MAX || p.tokens + view.tokens > U64_MAX then Err(ArithmeticOverflow)
      else Ok(Progress(view.item, p.rawBytes + view.text.bytes, p.tokens + view.tokens))
  }

  function FromStored(source: Range, artifacts: seq<ArtifactRef>, recent: seq<ViewItem>): Result<Reduced, ViewError> {
    if |artifacts| + |recent| > MAX_CONTEXT_VIEW_ITEMS then Err(TooManyItems)
    else
      var middle :- ReadArtifacts(artifacts, |artifacts|);
      var end :- ReadRecent(middle, recent, |recent|);
      if end.rawBytes > MAX_CONTEXT_VIEW_BYTES then Err(ViewTooLarge)
      else
        ReadFits(artifacts, recent);
        Ok(Reduced(source, artifacts, recent, end.rawBytes, end.tokens))
  }

  function ReducedFromItems(head: Head, items: seq<Item>, policy: Policy): Result<Reduced, ViewError> {
    if |items| > MAX_CONTEXT_VIEW_ITEMS then Err(TooManyItems)
    else
      var views := ProjectAll(items);
      var start := RecentStart(views, policy);
      FromStored(RangeOf(head), ReferAll(views[..start]), views[start..])
  }

  lemma {:induction false} ReadRecentFits(start: Progress, views: seq<ViewItem>, i: nat)
    requires i <= |views| && start.tokens <= U64_MAX
    ensures ReadRecent(start, views, i).Ok? ==> ReadRecent(start, views, i).value.tokens <= U64_MAX
    decreases i
  {
    if i > 0 {
      ReadRecentFits(start, views, i - 1);
    }
  }

  lemma {:induction false} ReadArtifactsFits(refs: seq<ArtifactRef>, i: nat)
    requires i <= |refs|
    ensures ReadArtifacts(refs, i).Ok? ==> ReadArtifacts(refs, i).value.tokens <= U64_MAX
    decreases i
  {
    if i > 0 {
      ReadArtifactsFits(refs, i - 1);
    }
  }

  lemma ReadFits(artifacts: seq<ArtifactRef>, recent: seq<ViewItem>)
    ensures var middle := ReadArtifacts(artifacts, |artifacts|);
            middle.Ok? && ReadRecent(middle.value, recent, |recent|).Ok? ==> ReadRecent(middle.value, recent, |recent|).value.tokens <= U64_MAX
  {
    ReadArtifactsFits(artifacts, |artifacts|);
    if ReadArtifacts(artifacts, |artifacts|).Ok? {
      ReadRecentFits(ReadArtifacts(artifacts, |artifacts|).value, recent, |recent|);
    }
  }

  /** Both loops of reading a stored reduction. */
  method ReadStored(source: Range, artifacts: seq<ArtifactRef>, recent: seq<ViewItem>) returns (r: Result<Reduced, ViewError>)
    ensures r == FromStored(source, artifacts, recent)
  {
    if |artifacts| + |recent| > MAX_CONTEXT_VIEW_ITEMS {
      return Err(TooManyItems);
    }
    var last: nat, tokens: nat, rawBytes: nat := 0, 0, 0;
    for i := 0 to |artifacts|
      invariant ReadArtifacts(artifacts, i) == Ok(Progress(last, 0, tokens))
    {
      ArtifactsFail(artifacts, i + 1);
      if artifacts[i].item <= last {
        return Err(InvalidStoredView);
      }
      last := artifacts[i].item;
      if tokens + artifacts[i].tokens > U64_MAX {
        return Err(ArithmeticOverflow);
      }
      tokens := tokens + artifacts[i].tokens;
    }
    ghost var middle := Progress(last, 0, tokens);
    for i := 0 to |recent|
      invariant ReadRecent(middle, recent, i) == Ok(Progress(last, rawBytes, tokens))
    {
      RecentFails(middle, recent, i + 1);
      if recent[i].item <= last {
        return Err(InvalidStoredView);
      }
      last := recent[i].item;
      if rawBytes + recent[i].text.bytes > U64_MAX {
        return Err(ArithmeticOverflow);
      }
      rawBytes := rawBytes + recent[i].text.bytes;
      if tokens + recent[i].tokens > U64_MAX {
        return Err(ArithmeticOverflow);
      }
      tokens := tokens + recent[i].tokens;
    }
    if rawBytes > MAX_CONTEXT_VIEW_BYTES {
      return Err(ViewTooLarge);
    }
    ReadFits(artifacts, recent);
    return Ok(Reduced(source, artifacts, recent, rawBytes, tokens));
  }

  lemma {:induction false} ArtifactsFail(refs: seq<ArtifactRef>, i: nat)
    requires i <= |refs|
    ensures ReadArtifacts(refs, i).Err? ==> ReadArtifacts(refs, |refs|) == Err(ReadArtifacts(refs, i).error)
    decreases |refs| - i
  {
    if i < |refs| {
      ArtifactsFail(refs, i + 1);
    }
  }

  lemma {:induction false} RecentFails(start: Progress, views: seq<ViewItem>, i: nat)
    requires i <= |views|
    ensures ReadRecent(start, views, i).Err? ==> ReadRecent(start, views, |views|) == Err(ReadRecent(start, views, i).error)
    decreases |views| - i
  {
    if i < |views| {
      RecentFails(start, views, i + 1);
    }
  }

  // ---------- reductions of real items ----------

  lemma ReadArtifactsStep(refs: seq<ArtifactRef>, i: nat)
    requires i < |refs|
    ensures ReadArtifacts(refs, i).Err? ==> ReadArtifacts(refs, i + 1) == ReadArtifacts(refs, i)
    ensures ReadArtifacts(refs, i).Ok? ==>
              var p := ReadArtifacts(refs, i).value;
              ReadArtifacts(refs, i + 1)
              == if refs[i].item <= p.last then Err(InvalidStoredView)
                 else if p.tokens + refs[i].tokens > U64_MAX then Err(ArithmeticOverflow)
                 else Ok(Progress(refs[i].item, 0, p.tokens + refs[i].tokens))
  {
  }

  lemma ReadStart(refs: seq<ArtifactRef>)
    ensures ReadArtifacts(refs, 0) == Ok(Progress(0, 0, 0))
  {
  }

  /** Reading back the references to the first `k` of some items. */
  lemma {:induction false} ReadProjectedArtifacts(items: seq<Item>, refs: seq<ArtifactRef>, k: nat)
    requires |items| <= MAX_CONTEXT_VIEW_ITEMS && k <= |refs| <= |items|
    requires forall i :: 0 <= i < |refs| ==> refs[i] == Refer(Project(items[i]))
    ensures ReadArtifacts(refs, k)
            == if IncreasingTo(items, k) then Ok(Progress(LastTo(items, k), 0, TokensTo(items, k))) else Err(InvalidStoredView)
    decreases k
  {
    hide IncreasingTo, TokensTo, LastTo, BytesTo, ReadArtifacts, Project;
    if k == 0 {
      NoneYet(items);
      ReadStart(refs);
    } else {
      ReadProjectedArtifacts(items, refs, k - 1);
      ReadArtifactsStep(refs, k - 1);
      OneMore(items, k - 1);
      TokensToBounded(items, k);
      assert refs[k - 1] == Refer(Project(items[k - 1]));
      ProjectText(items[k - 1]);
    }
  }

  lemma TokensToBounded(items: seq<Item>, k: nat)
    requires k <= |items| <= MAX_CONTEXT_VIEW_ITEMS
    ensures TokensTo(items, k) <= U64_MAX
  {
    TokensBounded(items[..k]);
  }

  lemma ReadRecentStep(start: Progress, views: seq<ViewItem>, i: nat)
    requires i < |views|
    ensures ReadRecent(start, views, 0) == Ok(start)
    ensures ReadRecent(start, views, i).Err? ==> ReadRecent(start, views, i + 1) == ReadRecent(start, views, i)
    ensures ReadRecent(start, views, i).Ok? ==>
              var p := ReadRecent(start, views, i).value;
              ReadRecent(start, views, i + 1)
              == if views[i].item <= p.last then Err(InvalidStoredView)
                 else if p.rawBytes + views[i].text.bytes > U64_MAX || p.tokens + views[i].tokens > U64_MAX then Err(ArithmeticOverflow)
                 else Ok(Progress(views[i].item, p.rawBytes + views[i].text.bytes, p.tokens + views[i].tokens))
  {
  }

  /** Reading on through the views of the items from `a` to `a + k`. */
  lemma {:induction false} ReadProjectedRecent(items: seq<Item>, a: nat, views: seq<ViewItem>, k: nat)
    requires a + |views| <= |items| <= MAX_CONTEXT_VIEW_ITEMS && k <= |views| && IncreasingTo(items, a)
    requires forall i :: 0 <= i < |views| ==> views[i] == Project(items[a + i])
    ensures var start := Progress(LastTo(items, a), 0, TokensTo(items, a));
            BytesTo(items, a) <= BytesTo(items, a + k)
            && ReadRecent(start, views, k)
               == if IncreasingTo(items, a + k) then Ok(Progress(LastTo(items, a + k), BytesTo(items, a + k) - BytesTo(items, a), TokensTo(items, a + k)))
                  else Err(InvalidStoredView)
    decreases k
  {
    hide IncreasingTo, TokensTo, LastTo, BytesTo, ReadRecent, Project;
    var start := Progress(LastTo(items, a), 0, TokensTo(items, a));
    if k == 0 {
      RecentStartsAt(start, views);
    } else {
      ReadProjectedRecent(items, a, views, k - 1);
      ReadRecentStep(start, views, k - 1);
      OneMore(items, a + k - 1);
      TokensToBounded(items, a + k);
      BytesToBounded(items, a + k);
      assert views[k - 1] == Project(items[a + k - 1]);
      ProjectText(items[a + k - 1]);
    }
  }

  lemma RecentStartsAt(start: Progress, views: seq<ViewItem>)
    ensures ReadRecent(start, views, 0) == Ok(start)
  {
  }

  lemma ProjectText(item: Item)
    ensures Project(item).text == item.text && Project(item).item == item.id
  {
  }

  lemma {:induction false} BytesToBounded(items: seq<Item>, k: nat)
    requires k <= |items| <= MAX_CONTEXT_VIEW_ITEMS
    ensures BytesTo(items, k) <= k * MAX_ITEM_TEXT_BYTES <= U64_MAX
    decreases k
  {
    hide IncreasingTo, TokensTo, LastTo, BytesTo, Project;
    if k == 0 {
      NoneYet(items);
    } else {
      BytesToBounded(items, k - 1);
      OneMore(items, k - 1);
      assert items[k - 1].text.bytes <= MAX_ITEM_TEXT_BYTES;
      assert (k - 1) * MAX_ITEM_TEXT_BYTES + MAX_ITEM_TEXT_BYTES == k * MAX_ITEM_TEXT_BYTES;
    }
  }

  lemma IncreasingNext(items: seq<Item>, k: nat)
    requires k < |items|
    ensures Increasing(items[..k + 1]) <==> Increasing(items[..k]) && (k == 0 || items[k - 1].id < items[k].id)
  {
    if Increasing(items[..k]) && k > 0 && items[k - 1].id < items[k].id {
      assert forall a :: 0 <= a < k ==> items[..k][a].id <= items[..k][k - 1].id;
    }
    if Increasing(items[..k + 1]) {
      assert forall a :: 0 <= a < k ==> items[..k][a] == items[..k + 1][a];
      assert k > 0 ==> items[..k + 1][k - 1].id < items[..k + 1][k].id;
    }
  }

  lemma TokensNext(items: seq<Item>, k: nat)
    requires k < |items|
    ensures Tokens(ProjectAll(items[..k + 1])) == Tokens(ProjectAll(items[..k])) + Project(items[k]).tokens
    ensures Bytes(ProjectAll(items[..k + 1])) == Bytes(ProjectAll(items[..k])) + items[k].text.bytes
  {
    assert ProjectAll(items[..k + 1])[..k] == ProjectAll(items[..k]);
  }

  lemma BytesOfTail(items: seq<Item>, k: nat)
    requires k <= |items|
    ensures Bytes(ProjectAll(items)[k..]) == BytesTo(items, |items|) - BytesTo(items, k)
    ensures TokensTo(items, |items|) == Tokens(ProjectAll(items))
  {
    SumsSplit(ProjectAll(items), k);
    assert ProjectAll(items)[..k] == ProjectAll(items[..k]);
    assert items[..|items|] == items;
  }

  lemma IncreasingPrefix(items: seq<Item>, k: nat)
    requires k <= |items|
    ensures Increasing(items) ==> IncreasingTo(items, k)
    ensures IncreasingTo(items, |items|) == Increasing(items)
  {
    assert items[..|items|] == items;
  }

  /** Storing the items up to `start` by reference and the rest raw. */
  lemma StoredFromItems(source: Range, items: seq<Item>, start: nat, refs: seq<ArtifactRef>, recent: seq<ViewItem>)
    requires start == |refs| && start + |recent| == |items| <= MAX_CONTEXT_VIEW_ITEMS
    requires forall i :: 0 <= i < |refs| ==> refs[i] == Refer(Project(items[i]))
    requires forall i :: 0 <= i < |recent| ==> recent[i] == Project(items[start + i])
    ensures BytesTo(items, start) <= BytesTo(items, |items|) && TokensTo(items, |items|) <= U64_MAX
    ensures FromStored(source, refs, recent)
            == if !Increasing(items) then Err(InvalidStoredView)
               else if BytesTo(items, |items|) - BytesTo(items, start) > MAX_CONTEXT_VIEW_BYTES then Err(ViewTooLarge)
               else Ok(Reduced(source, refs, recent, BytesTo(items, |items|) - BytesTo(items, start), TokensTo(items, |items|)))
  {
    hide ReadArtifacts, ReadRecent, Increasing, IncreasingTo, BytesTo, TokensTo, LastTo, Project, Refer;
    ReadProjectedArtifacts(items, refs, start);
    IncreasingPrefix(items, start);
    TokensToBounded(items, |items|);
    BytesRise(items, start, |items|);
    if IncreasingTo(items, start) {
      ReadProjectedRecent(items, start, recent, |recent|);
    }
  }

  lemma {:induction false} BytesRise(items: seq<Item>, a: nat, b: nat)
    requires a <= b <= |items|
    ensures BytesTo(items, a) <= BytesTo(items, b)
    decreases b - a
  {
    hide BytesTo, TokensTo, LastTo, IncreasingTo, Project;
    if a < b {
      OneMore(items, a);
      BytesRise(items, a + 1, b);
    }
  }

  /** A reduction exists exactly for at most 4096 items of rising identifiers, whatever their total size; references and
      raw items together carry the tokens of the whole input. */
  lemma ReductionAccepted(head: Head, items: seq<Item>, policy: Policy)
    requires ValidPolicy(policy)
    ensures var r, views := ReducedFromItems(head, items, policy), ProjectAll(items);
            var start := RecentStart(views, policy);
            && (r.Ok? <==> |items| <= MAX_CONTEXT_VIEW_ITEMS && Increasing(items))
            && (r.Ok? ==> Tokens(views) <= U64_MAX
                          && r.value == Reduced(RangeOf(head), ReferAll(views[..start]), views[start..], Bytes(views[start..]), Tokens(views))
                          && RefTokens(r.value.artifacts) + Tokens(r.value.recent) == r.value.tokens == Tokens(views))
  {
    hide RecentStart, FromStored, Increasing, BytesTo, TokensTo, Bytes, Tokens, RefTokens, Project, Refer;
    if |items| <= MAX_CONTEXT_VIEW_ITEMS {
      var views := ProjectAll(items);
      var start := RecentStart(views, policy);
      RecentStartIsLongest(views, policy);
      StoredFromItems(RangeOf(head), items, start, ReferAll(views[..start]), views[start..]);
      BytesOfTail(items, start);
      SumsSplit(views, start);
      RefTokensMatch(views[..start]);
    }
  }

  /** Projecting then reducing is reducing directly, whenever the full view exists. */
  lemma ReduceAgrees(head: Head, items: seq<Item>, policy: Policy)
    requires ValidPolicy(policy) && FromItems(head, items).Ok?
    ensures FromItems(head, items).value.tokens <= U64_MAX
    ensures ReducedFromItems(head, items, policy) == Ok(Reduce(FromItems(head, items).value, policy))
  {
    hide FromItems, ReducedFromItems, RecentStart, Bytes, Tokens, ProjectAll, ReferAll, Increasing;
    ViewAccepted(head, items);
    ReductionAccepted(head, items, policy);
  }

  // ---------- checking a stored reduction ----------

  function ValidateAgainst(r: Reduced, authoritative: seq<Item>): Result<(), ViewError> {
    var n := |r.artifacts|;
    if n + |r.recent| != |authoritative| then Err(ArtifactMismatch)
    else if exists i :: 0 <= i < n && r.artifacts[i] != Refer(Project(authoritative[i])) then Err(ArtifactMismatch)
    else if exists i :: 0 <= i < |r.recent| && r.recent[i] != Project(authoritative[n + i]) then Err(ArtifactMismatch)
    else Ok(())
  }

  /** It is accepted exactly when it refers to the first items and repeats the rest. */
  lemma ValidateMeans(r: Reduced, authoritative: seq<Item>)
    ensures ValidateAgainst(r, authoritative).Ok? <==>
              && |r.artifacts| + |r.recent| == |authoritative|
              && r.artifacts == ReferAll(ProjectAll(authoritative[..|r.artifacts|]))
              && r.recent == ProjectAll(authoritative[|r.artifacts|..])
  {
    hide Project, Refer;
    if |r.artifacts| + |r.recent| == |authoritative| {
      var refs, views := ReferAll(ProjectAll(authoritative[..|r.artifacts|])), ProjectAll(authoritative[|r.artifacts|..]);
      assert forall i :: 0 <= i < |refs| ==> refs[i] == Refer(Project(authoritative[i]));
      assert forall i :: 0 <= i < |views| ==> views[i] == Project(authoritative[|r.artifacts| + i]);
    }
  }

  lemma ReductionValidates(head: Head, items: seq<Item>, policy: Policy)
    requires ValidPolicy(policy) && ReducedFromItems(head, items, policy).Ok?
    ensures ValidateAgainst(ReducedFromItems(head, items, policy).value, items) == Ok(())
  {
    ReductionAccepted(head, items, policy);
    hide ReducedFromItems, RecentStart, Project, Increasing, Bytes, Tokens;
    var r, views := ReducedFromItems(head, items, policy).value, ProjectAll(items);
    var start := RecentStart(views, policy);
    assert ProjectAll(items[..start]) == views[..start] && ProjectAll(items[start..]) == views[start..];
    ValidateMeans(r, items);
  }

  // ---------- requests ----------

  function FirstUser(views: seq<ViewItem>): (k: nat)
    ensures k <= |views| && (k < |views| ==> views[k].role.User?)
    ensures forall i :: 0 <= i < k ==> views[i].role.Assistant?
  {
    if |views| == 0 || views[0].role.User? then 0 else 1 + FirstUser(views[1..])
  }

  /** A request never starts with an assistant item. */
  function Visible(views: seq<ViewItem>): seq<ViewItem> {
    views[FirstUser(views)..]
  }

  function LastCovered(r: Reduced): nat {
    if |r.recent| > 0 then r.recent[|r.recent| - 1].item
    else if |r.artifacts| > 0 then r.artifacts[|r.artifacts| - 1].item
    else 0
  }

  predicate RisingAfter(last: nat, items: seq<Item>) {
    (|items| > 0 ==> last < items[0].id) && forall i :: 0 < i < |items| ==> items[i - 1].id < items[i].id
  }

  function Materialize(r: Reduced, authoritative: seq<Item>): Result<RequestView, ViewError> {
    var n := |r.artifacts| + |r.recent|;
    if |authoritative| > MAX_CONTEXT_VIEW_ITEMS then Err(TooManyItems)
    else if n > |authoritative| then Err(ArtifactMismatch)
    else
      var _ :- ValidateAgainst(r, authoritative[..n]);
      if !RisingAfter(LastCovered(r), authoritative[n..]) then Err(InvalidStoredView)
      else
        var all := r.recent + ProjectAll(authoritative[n..]);
        var visible := Visible(all);
        if Bytes(visible) > MAX_CONTEXT_VIEW_BYTES then Err(ViewTooLarge)
        else Ok(RequestView(r.source, |r.artifacts| + FirstUser(all), visible, Bytes(visible), Tokens(visible)))
  }

  /** Extends the raw tail with the items recorded since. */
  method AppendLater(recent: seq<ViewItem>, last: nat, later: seq<Item>) returns (r: Result<seq<ViewItem>, ViewError>)
    ensures r == if RisingAfter(last, later) then Ok(recent + ProjectAll(later)) else Err(InvalidStoredView)
  {
    hide Project;
    var items, previous := recent, last;
    for i := 0 to |later|
      invariant previous == if i == 0 then last else later[i - 1].id
      invariant items == recent + ProjectAll(later[..i])
      invariant RisingAfter(last, later[..i])
    {
      if later[i].id <= previous {
        assert !RisingAfter(last, later);
        return Err(InvalidStoredView);
      }
      previous := later[i].id;
      assert ProjectAll(later[..i + 1]) == ProjectAll(later[..i]) + [Project(later[i])];
      items := items + [Project(later[i])];
    }
    assert later[..|later|] == later;
    return Ok(items);
  }

  method CountLeading(items: seq<ViewItem>) returns (leading: nat)
    ensures leading == FirstUser(items)
  {
    leading := 0;
    assert items[0..] == items;
    while leading < |items| && items[leading].role.Assistant?
      invariant leading <= |items| && FirstUser(items) == leading + FirstUser(items[leading..])
    {
      assert items[leading..][1..] == items[leading + 1..];
      leading := leading + 1;
    }
  }

  method Totals(items: seq<ViewItem>) returns (rawBytes: nat, tokens: nat)
    ensures rawBytes == Bytes(items) && tokens == Tokens(items)
  {
    rawBytes, tokens := 0, 0;
    for i := 0 to |items|
      invariant rawBytes == Bytes(items[..i]) && tokens == Tokens(items[..i])
    {
      assert items[..i + 1][..i] == items[..i];
      rawBytes := rawBytes + items[i].text.bytes;
      tokens := tokens + items[i].tokens;
    }
    assert items[..|items|] == items;
  }

  /** Check, extend, drop, total. */
  method MaterializeRequest(r: Reduced, authoritative: seq<Item>) returns (result: Result<RequestView, ViewError>)
    ensures result == Materialize(r, authoritative)
  {
    hide ValidateAgainst, ProjectAll, RisingAfter, LastCovered, FirstUser, Bytes, Tokens;
    if |authoritative| > MAX_CONTEXT_VIEW_ITEMS {
      return Err(TooManyItems);
    }
    var n := |r.artifacts| + |r.recent|;
    if n > |authoritative| {
      return Err(ArtifactMismatch);
    }
    var _ :- ValidateAgainst(r, authoritative[..n]);
    var items :- AppendLater(r.recent, LastCovered(r), authoritative[n..]);
    var leading := CountLeading(items);
    items := items[leading..];
    var rawBytes, tokens := Totals(items);
    if rawBytes > MAX_CONTEXT_VIEW_BYTES {
      return Err(ViewTooLarge);
    }
    return Ok(RequestView(r.source, |r.artifacts| + leading, items, rawBytes, tokens));
  }

  lemma {:induction false} RisingSuffix(items: seq<Item>, n: nat)
    requires Increasing(items) && n <= |items|
    ensures RisingAfter(if n == 0 then 0 else items[n - 1].id, items[n..])
  {
  }

  /** A reduction that agreed with some items stays usable while the conversation grows: materialising it against
      any longer history of rising identifiers fails only on the item count or the visible bytes. What is visible is
      everything after the artifacts with leading assistant items dropped, and archived plus visible is everything. */
  lemma MaterializeStable(r: Reduced, items: seq<Item>, later: seq<Item>)
    requires ValidateAgainst(r, items).Ok? && Increasing(items + later)
    ensures var all := items + later;
            && |r.artifacts| <= |items|
            && var visible := Visible(ProjectAll(all[|r.artifacts|..]));
            && |visible| <= |all|
            && Materialize(r, all)
               == if |all| > MAX_CONTEXT_VIEW_ITEMS then Err(TooManyItems)
                  else if Bytes(visible) > MAX_CONTEXT_VIEW_BYTES then Err(ViewTooLarge)
                  else Ok(RequestView(r.source, |all| - |visible|, visible, Bytes(visible), Tokens(visible)))
  {
    hide ValidateAgainst, Project, Bytes, Tokens, Increasing, RisingAfter, LastCovered, FirstUser;
    ValidateMeans(r, items);
    var all, start := items + later, |r.artifacts|;
    assert all[..|items|] == items && all[|items|..] == later;
    assert r.recent + ProjectAll(later) == ProjectAll(all[start..]);
    LastCoveredIs(r, items, start);
    RisingSuffix(all, |items|);
  }

  lemma LastCoveredIs(r: Reduced, items: seq<Item>, start: nat)
    requires start <= |items| && r.artifacts == ReferAll(ProjectAll(items[..start])) && r.recent == ProjectAll(items[start..])
    ensures LastCovered(r) == if |items| == 0 then 0 else items[|items| - 1].id
  {
  }

  function RequestFromItems(head: Head, items: seq<Item>): Result<RequestView, ViewError> {
    var view :- FromItems(head, items);
    var visible := Visible(view.items);
    Ok(RequestView(view.source, FirstUser(view.items), visible, Bytes(visible), Tokens(visible)))
  }

  /** When everything was kept raw, materialising gives the same request as a view of the whole conversation. */
  lemma UnreducedAgrees(head: Head, items: seq<Item>, later: seq<Item>, policy: Policy, now: Head)
    requires ValidPolicy(policy) && ReducedFromItems(head, items, policy).Ok?
    requires ReducedFromItems(head, items, policy).value.artifacts == [] && RequestFromItems(now, items + later).Ok?
    ensures Materialize(ReducedFromItems(head, items, policy).value, items + later)
            == Ok(RequestFromItems(now, items + later).value.(source := RangeOf(head)))
  {
    var all := items + later;
    ViewAccepted(now, all);
    ReductionAccepted(head, items, policy);
    ReductionValidates(head, items, policy);
    hide FromItems, ReducedFromItems, Materialize, Bytes, Tokens, ProjectAll, ValidateAgainst, RecentStart;
    MaterializeStable(ReducedFromItems(head, items, policy).value, items, later);
    assert all[0..] == all;
    VisibleBounded(ProjectAll(all));
  }

  lemma VisibleBounded(views: seq<ViewItem>)
    ensures Bytes(Visible(views)) <= Bytes(views) && FirstUser(views) + |Visible(views)| == |views|
  {
    SumsSplit(views, FirstUser(views));
  }
}
