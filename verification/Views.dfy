/** Conversation pages: what their constructors admit, and what following their cursors therefore visits. */
module Views {
  import opened Wire
  import opened Cursors
  import Tokens
  import Spelling
  import O = OrderKey
  import Projection

  datatype EntryKind = HumanEntry | AssistantEntry | ToolEntry | ReuseEntry | NoticeEntry

  const HumanOrder: Text := Ascii("0")
  const HumanField: Text := Ascii("text")

  datatype FieldFragment = FieldFragment(
    id: Text, order: Text, kind: Projection.FieldKind, generation: u64,
    total: u64, from: u64, to: u64, text: Text)

  /** `FieldFragment::new` succeeds. */
  predicate ValidFragment(f: FieldFragment) {
    && Tokens.IsFieldId(f.id) && (f.order == HumanOrder || O.Parse(f.order).Some?)
    && f.generation != 0 && f.from <= f.to <= f.total && |f.text| == f.to - f.from
  }

  datatype EntryView = EntryView(
    run: Text, id: EntryId, revision: u64, epoch: u64, kind: EntryKind,
    reference: Option<(Text, EntryId)>, resultRecorded: Option<bool>, finishRecorded: Option<bool>, isError: Option<bool>,
    fields: seq<FieldFragment>, earlier: Option<ContentCursor>, complete: bool)

  predicate ValidField(e: EntryView, f: FieldFragment) {
    && ValidFragment(f) && e.id.sequence <= f.generation <= e.revision
    && (!e.kind.HumanEntry? ==> f.order != HumanOrder)
    && (e.complete ==> f.from == 0 && f.to == f.total)
  }

  predicate DistinctFieldIds(fields: seq<FieldFragment>) {
    forall i, j :: 0 <= i < j < |fields| ==> fields[i].id != fields[j].id
  }

  predicate ValidEarlier(e: EntryView, c: ContentCursor) {
    && NewContent(c).Some? && c.run == e.run && c.entry == e.id && c.epoch == e.epoch && c.generation <= e.revision
    && forall i :: 0 <= i < |e.fields| && e.fields[i].id == c.field ==>
        e.fields[i].generation == c.generation && c.upper <= e.fields[i].total
  }

  /** `EntryView::new` succeeds. */
  predicate ValidView(e: EntryView) {
    && Tokens.IsUuid(e.run) && ValidEntry(e.id)
    && (e.kind.HumanEntry? ==>
          |e.fields| == 1 && e.fields[0].id == HumanField && e.fields[0].order == HumanOrder && e.fields[0].kind.PlainText?)
    && e.id.sequence <= e.epoch <= e.revision
    && (e.kind.ReuseEntry? <==> e.reference.Some?)
    && (e.reference.Some? ==> e.reference.value.0 == e.run && EntryBefore(e.reference.value.1, e.id))
    && (!e.kind.ToolEntry? && !e.kind.ReuseEntry? ==> e.resultRecorded.None? && e.finishRecorded.None? && e.isError.None?)
    && (forall i :: 0 <= i < |e.fields| ==> ValidField(e, e.fields[i]))
    && DistinctFieldIds(e.fields)
    && (forall i {:trigger e.fields[i]} :: 0 < i < |e.fields| ==> Spelling.Less(e.fields[i - 1].order, e.fields[i].order))
    && (e.complete ==> e.earlier.None?)
    && (e.earlier.Some? ==> ValidEarlier(e, e.earlier.value))
  }

  /** The id check of the constructor: insert each id into a set, refusing repeats. */
  method UniqueIds(fields: seq<FieldFragment>) returns (unique: bool)
    ensures unique <==> DistinctFieldIds(fields)
  {
    var seen: set<Text> := {};
    for n := 0 to |fields|
      invariant DistinctFieldIds(fields[..n])
      invariant forall id :: id in seen <==> exists i :: 0 <= i < n && fields[i].id == id
    {
      if fields[n].id in seen {
        var i :| 0 <= i < n && fields[i].id == fields[n].id;
        return false;
      }
      seen := seen + {fields[n].id};
    }
    assert fields[..|fields|] == fields;
    return true;
  }

  lemma SpellingOrders(a: Text, b: Text)
    requires O.Parse(a).Some? && O.Parse(b).Some? && Spelling.Less(a, b)
    ensures O.Before(O.Parse(a).value, O.Parse(b).value)
  {
    O.PrintOfParse(a);
    O.PrintOfParse(b);
    O.PrintPreservesOrder(O.Parse(a).value, O.Parse(b).value);
  }

  lemma FieldParses(e: EntryView, i: nat)
    requires ValidView(e) && !e.kind.HumanEntry? && i < |e.fields|
    ensures O.Parse(e.fields[i].order).Some?
    ensures 0 < i ==> Spelling.Less(e.fields[i - 1].order, e.fields[i].order)
  {
    assert ValidField(e, e.fields[i]);
  }

  lemma {:induction false} SpellingsAscend(orders: seq<Text>, i: nat, j: nat)
    requires forall k :: 0 <= k < |orders| ==> O.Parse(orders[k]).Some?
    requires forall k {:trigger orders[k]} :: 0 < k < |orders| ==> Spelling.Less(orders[k - 1], orders[k])
    requires i < j < |orders|
    ensures O.Before(O.Parse(orders[i]).value, O.Parse(orders[j]).value)
    decreases j
  {
    SpellingOrders(orders[j - 1], orders[j]);
    if i < j - 1 {
      SpellingsAscend(orders, i, j - 1);
      O.BeforeIsTransitive(O.Parse(orders[i]).value, O.Parse(orders[j - 1]).value, O.Parse(orders[j]).value);
    }
  }

  /** The fields of an admitted entry carry strictly increasing order keys. */
  lemma OrderAscends(e: EntryView, i: nat, j: nat)
    requires ValidView(e) && !e.kind.HumanEntry? && i < j < |e.fields|
    ensures var a, b := O.Parse(e.fields[i].order), O.Parse(e.fields[j].order);
            a.Some? && b.Some? && O.Before(a.value, b.value)
  {
    var orders := seq(|e.fields|, k requires 0 <= k < |e.fields| => e.fields[k].order);
    forall k | 0 <= k < |orders| ensures O.Parse(orders[k]).Some? && (0 < k ==> Spelling.Less(orders[k - 1], orders[k])) {
      FieldParses(e, k);
    }
    SpellingsAscend(orders, i, j);
  }

  lemma SpellingIsAdmitted(key: O.Key)
    ensures O.Parse(O.Print(key)).Some? && O.Print(key) != HumanOrder
  {
    O.ParseOfPrint(key);
    assert |O.Print(key)| > 1 && |HumanOrder| == 1;
  }

  ghost predicate Admitted(fields: seq<Projection.Field>, i: nat)
    requires i < |fields|
  {
    && Projection.Orderable(fields[i])
    && var order := O.Print(Projection.KeyOf(fields[i]));
    && O.Parse(order).Some? && order != HumanOrder
    && (0 < i ==> Projection.Orderable(fields[i - 1]) && Spelling.Less(O.Print(Projection.KeyOf(fields[i - 1])), order))
  }

  lemma AscendingIsAdmitted(fields: seq<Projection.Field>, i: nat)
    requires Projection.Ascending(fields) && i < |fields|
    ensures Admitted(fields, i)
  {
    SpellingIsAdmitted(Projection.KeyOf(fields[i]));
    if 0 < i { O.PrintPreservesOrder(Projection.KeyOf(fields[i - 1]), Projection.KeyOf(fields[i])); }
  }

  /** The spellings of a projected response's fields pass every check an entry makes on order keys. */
  lemma ProjectionIsAdmitted(response: ModelResponse, i: nat)
    requires Projection.InMemory(response) && i < |Projection.Projected(response)|
    ensures Admitted(Projection.Projected(response), i)
  {
    Projection.ProjectionAscends(response);
    AscendingIsAdmitted(Projection.Projected(response), i);
  }

  // ---- blocks and pages

  datatype BlockView = BlockView(run: Text, accepted: u64, revision: u64, human: EntryView)

  /** `BlockView::new` succeeds. */
  predicate ValidBlockView(b: BlockView) {
    && b.accepted != 0 && b.accepted <= b.revision
    && ValidView(b.human) && b.human.kind.HumanEntry? && b.human.run == b.run
    && b.human.id == EntryId(b.accepted, 0) && b.human.revision <= b.revision
  }

  predicate MatchesBlock(e: EntryView, b: BlockView) {
    && e.run == b.run
    && if e.kind.HumanEntry? then e.id == b.human.id && e.revision == b.human.revision && e.epoch == b.human.epoch
       else EntryBefore(b.human.id, e.id)
  }

  predicate EntryInSnapshot(e: EntryView, session: Text, head: u64) {
    e.revision <= head && (e.earlier.Some? ==> e.earlier.value.session == session)
  }

  predicate BlockInSnapshot(b: BlockView, session: Text, head: u64) {
    b.revision <= head && EntryInSnapshot(b.human, session, head)
  }

  datatype Query = Latest | Before(block: BlockCursor) | Within(activity: ActivityCursor)

  datatype Page = Page(
    head: u64, session: Text, sessionHead: u64, block: Option<BlockView>, entries: seq<EntryView>,
    earlierActivity: Option<ActivityCursor>, previousBlock: Option<BlockCursor>, liveAfter: Option<LiveCursor>)

  predicate AnswersQuery(q: Query, p: Page) {
    match q
    case Latest => true
    case Before(c) => c.session == p.session && (p.block.Some? ==> p.block.value.accepted < c.before)
    case Within(c) =>
      && c.session == p.session && p.block.Some? && p.block.value.run == c.run
      && forall i :: 0 <= i < |p.entries| ==> EntryBefore(p.entries[i].id, EntryId(c.sequence, c.slot))
  }

  predicate ValidEntries(p: Page, b: BlockView) {
    && (forall i :: 0 <= i < |p.entries| ==>
          && ValidView(p.entries[i]) && !p.entries[i].kind.HumanEntry?
          && MatchesBlock(p.entries[i], b) && EntryInSnapshot(p.entries[i], p.session, p.head))
    && forall i {:trigger p.entries[i]} :: 0 < i < |p.entries| ==> EntryBefore(p.entries[i - 1].id, p.entries[i].id)
  }

  /** `ConversationPage::new` succeeds. */
  predicate ValidPage(q: Query, p: Page) {
    && p.head != 0 && p.head == p.sessionHead
    && (q.Latest? <==> p.liveAfter.Some?)
    && (p.liveAfter.Some? ==>
          p.liveAfter.value.session == p.session && p.liveAfter.value.rank == 3 && p.liveAfter.value.sequence == p.head)
    && AnswersQuery(q, p)
    && if p.block.Some? then
         var b := p.block.value;
         && ValidBlockView(b) && BlockInSnapshot(b, p.session, p.head) && ValidEntries(p, b)
         && (p.previousBlock.Some? ==>
               p.previousBlock.value.session == p.session && p.previousBlock.value.before == b.accepted)
         && (p.earlierActivity.Some? ==>
               && p.earlierActivity.value.session == p.session && p.earlierActivity.value.run == b.run && p.entries != []
               && p.entries[0].id == EntryId(p.earlierActivity.value.sequence, p.earlierActivity.value.slot))
       else p.entries == [] && p.earlierActivity.None? && p.previousBlock.None?
  }

  lemma {:induction false} EntriesAscend(p: Page, q: Query, i: nat, j: nat)
    requires ValidPage(q, p) && i < j < |p.entries|
    ensures EntryBefore(p.entries[i].id, p.entries[j].id)
    decreases j
  {
    assert EntryBefore(p.entries[j - 1].id, p.entries[j].id);
    if i < j - 1 { EntriesAscend(p, q, i, j - 1); }
  }

  // ---- following previous_block

  ghost predicate BlockLeads(queries: seq<Query>, pages: seq<Page>, i: nat)
    requires |queries| == |pages| && i + 1 < |pages|
  {
    pages[i].previousBlock.Some? && queries[i + 1] == Before(pages[i].previousBlock.value)
  }

  /** A reader follows the block cursor of each page to the next. Pages may be of different snapshots. */
  ghost predicate BlockChain(queries: seq<Query>, pages: seq<Page>) {
    && |queries| == |pages|
    && (forall i :: 0 <= i < |pages| ==> ValidPage(queries[i], pages[i]))
    && forall i :: 0 <= i < |pages| - 1 ==> BlockLeads(queries, pages, i)
  }

  lemma NextBlock(query: Query, page: Page, next: Page)
    requires ValidPage(query, page) && page.previousBlock.Some? && ValidPage(Before(page.previousBlock.value), next)
    ensures page.block.Some? && next.session == page.session
    ensures next.block.Some? ==> next.block.value.accepted < page.block.value.accepted
  {
  }

  lemma ChainStep(queries: seq<Query>, pages: seq<Page>, i: nat)
    requires BlockChain(queries, pages) && i + 1 < |pages|
    ensures pages[i].block.Some? && pages[i + 1].session == pages[i].session
    ensures pages[i + 1].block.Some? ==> pages[i + 1].block.value.accepted < pages[i].block.value.accepted
  {
    assert BlockLeads(queries, pages, i);
    assert ValidPage(queries[i], pages[i]) && ValidPage(queries[i + 1], pages[i + 1]);
    NextBlock(queries[i], pages[i], pages[i + 1]);
  }

  /** Every later block was accepted strictly earlier, in the same session. */
  lemma {:induction false} BlocksDescend(queries: seq<Query>, pages: seq<Page>, i: nat, j: nat)
    requires BlockChain(queries, pages) && i < j < |pages|
    ensures pages[i].block.Some? && pages[j].session == pages[i].session
    ensures pages[j].block.Some? ==> pages[j].block.value.accepted < pages[i].block.value.accepted
    decreases j
  {
    ChainStep(queries, pages, j - 1);
    if i < j - 1 { BlocksDescend(queries, pages, i, j - 1); }
  }

  /** So every chain ends: it has no more pages than the first accepted sequence, and one. */
  lemma {:induction false} BlockChainEnds(queries: seq<Query>, pages: seq<Page>)
    requires BlockChain(queries, pages) && pages != [] && pages[0].block.Some?
    ensures |pages| <= pages[0].block.value.accepted + 1
  {
    if |pages| >= 2 {
      DescentIsLong(queries, pages, |pages| - 2);
      assert ValidPage(queries[|pages| - 2], pages[|pages| - 2]);
    }
  }

  lemma {:induction false} DescentIsLong(queries: seq<Query>, pages: seq<Page>, n: nat)
    requires BlockChain(queries, pages) && n + 1 < |pages|
    ensures pages[0].block.Some? && pages[n].block.Some?
    ensures pages[n].block.value.accepted + n <= pages[0].block.value.accepted
  {
    ChainStep(queries, pages, n);
    if n > 0 {
      DescentIsLong(queries, pages, n - 1);
      ChainStep(queries, pages, n - 1);
    }
  }

  // ---- following earlier_activity

  ghost predicate ActivityLeads(queries: seq<Query>, pages: seq<Page>, i: nat)
    requires |queries| == |pages| && i + 1 < |pages|
  {
    pages[i].earlierActivity.Some? && queries[i + 1] == Within(pages[i].earlierActivity.value)
  }

  ghost predicate ActivityChain(queries: seq<Query>, pages: seq<Page>) {
    && |queries| == |pages|
    && (forall i :: 0 <= i < |pages| ==> ValidPage(queries[i], pages[i]))
    && forall i :: 0 <= i < |pages| - 1 ==> ActivityLeads(queries, pages, i)
  }

  /** The entries in reading order: the last page followed is the earliest. */
  ghost function Reading(pages: seq<Page>): seq<EntryView> {
    if pages == [] then [] else Reading(pages[1..]) + pages[0].entries
  }

  ghost predicate Ascending(entries: seq<EntryView>) {
    forall i, j :: 0 <= i < j < |entries| ==> EntryBefore(entries[i].id, entries[j].id)
  }

  lemma ChainTail(queries: seq<Query>, pages: seq<Page>)
    requires ActivityChain(queries, pages) && pages != []
    ensures ActivityChain(queries[1..], pages[1..])
  {
    var q, p := queries[1..], pages[1..];
    forall i | 0 <= i < |p| ensures ValidPage(q[i], p[i]) {
      assert ValidPage(queries[i + 1], pages[i + 1]);
    }
    forall i | 0 <= i < |p| - 1 ensures ActivityLeads(q, p, i) {
      assert ActivityLeads(queries, pages, i + 1);
    }
  }

  lemma NextActivity(query: Query, page: Page, next: Page)
    requires ValidPage(query, page) && page.earlierActivity.Some? && ValidPage(Within(page.earlierActivity.value), next)
    ensures page.block.Some? && next.block.Some? && next.block.value.run == page.block.value.run && next.session == page.session
    ensures page.entries != []
    ensures AllBefore(next.entries, page.entries[0].id)
  {
  }

  lemma ActivityStep(queries: seq<Query>, pages: seq<Page>, i: nat)
    requires ActivityChain(queries, pages) && i + 1 < |pages|
    ensures pages[i].block.Some? && pages[i + 1].block.Some? && pages[i + 1].block.value.run == pages[i].block.value.run
    ensures pages[i].entries != [] && pages[i + 1].session == pages[i].session
    ensures AllBefore(pages[i + 1].entries, pages[i].entries[0].id)
  {
    assert ActivityLeads(queries, pages, i);
    assert ValidPage(queries[i], pages[i]) && ValidPage(queries[i + 1], pages[i + 1]);
    NextActivity(queries[i], pages[i], pages[i + 1]);
  }

  ghost predicate OfRun(entries: seq<EntryView>, run: Text) {
    forall i :: 0 <= i < |entries| ==> entries[i].run == run
  }

  ghost predicate AllBefore(entries: seq<EntryView>, id: EntryId) {
    forall i :: 0 <= i < |entries| ==> EntryBefore(entries[i].id, id)
  }

  lemma PageIsOfRun(query: Query, page: Page)
    requires ValidPage(query, page)
    ensures Ascending(page.entries)
    ensures page.entries != [] ==> page.block.Some? && OfRun(page.entries, page.block.value.run)
  {
    forall i, j | 0 <= i < j < |page.entries| ensures EntryBefore(page.entries[i].id, page.entries[j].id) {
      EntriesAscend(page, query, i, j);
    }
  }

  /** All pages show one run, and together their entries ascend strictly: nothing repeats. */
  lemma {:induction false} ActivityAscends(queries: seq<Query>, pages: seq<Page>)
    requires ActivityChain(queries, pages) && pages != []
    ensures Ascending(Reading(pages))
    ensures Reading(pages) != [] ==> pages[0].block.Some? && OfRun(Reading(pages), pages[0].block.value.run)
    ensures Reading(pages) != [] ==> pages[0].entries != []
    ensures pages[0].entries != [] ==> AllBefore(Reading(pages[1..]), pages[0].entries[0].id)
    decreases |pages|
  {
    assert ValidPage(queries[0], pages[0]);
    PageIsOfRun(queries[0], pages[0]);
    if |pages| > 1 {
      ChainTail(queries, pages);
      ActivityAscends(queries[1..], pages[1..]);
      ActivityStep(queries, pages, 0);
      var next := pages[1..];
      BeforeTheFirst(Reading(next[1..]), next[0].entries, pages[0].entries[0].id);
      ReadingAscends(Reading(next), pages[0].entries);
    } else {
      assert pages[1..] == [];
      assert Reading(pages) == pages[0].entries;
    }
  }

  lemma BeforeTheFirst(a: seq<EntryView>, b: seq<EntryView>, id: EntryId)
    requires AllBefore(b, id) && (b == [] ==> a == []) && (b != [] ==> AllBefore(a, b[0].id))
    ensures AllBefore(a + b, id)
  {
  }

  lemma ReadingAscends(a: seq<EntryView>, b: seq<EntryView>)
    requires Ascending(a) && Ascending(b)
    requires forall i :: 0 <= i < |a| ==> b != [] && EntryBefore(a[i].id, b[0].id)
    ensures Ascending(a + b)
  {
    forall i, j | 0 <= i < |a| && 0 <= j < |b| ensures EntryBefore(a[i].id, b[j].id) {
      if j > 0 { assert EntryBefore(b[0].id, b[j].id); }
    }
  }

  /** A position as one number. */
  function Rank(id: EntryId): nat { id.sequence * (U64_MAX + 1) + id.slot }

  lemma RankOrders(a: EntryId, b: EntryId)
    requires EntryBefore(a, b)
    ensures Rank(a) < Rank(b)
  {
  }

  lemma {:induction false} ActivityIsLong(queries: seq<Query>, pages: seq<Page>, n: nat)
    requires ActivityChain(queries, pages) && n + 1 < |pages|
    ensures pages[0].entries != [] && pages[n].entries != []
    ensures Rank(pages[n].entries[0].id) + n <= Rank(pages[0].entries[0].id)
  {
    ActivityStep(queries, pages, n);
    if n > 0 {
      ActivityIsLong(queries, pages, n - 1);
      ActivityStep(queries, pages, n - 1);
      RankOrders(pages[n].entries[0].id, pages[n - 1].entries[0].id);
    }
  }

  /** So following activity cursors ends as well. */
  lemma ActivityChainEnds(queries: seq<Query>, pages: seq<Page>)
    requires ActivityChain(queries, pages) && |pages| > 1
    ensures pages[0].entries != [] && |pages| <= Rank(pages[0].entries[0].id) + 2
  {
    ActivityIsLong(queries, pages, |pages| - 2);
  }
}
