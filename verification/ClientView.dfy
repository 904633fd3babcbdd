/** What the browser shows of a run, read off the run's events: every source and claim that was announced, once and as
    last announced, and the stage and cancellation that the latest event about them announced
    (web/src/generation.ts:98-285). */
module ClientView {
  import opened Reachability
  import opened GraphTypes
  import opened StagePlan
  import opened RunModel
  import opened ClientReducer
  import opened ClientReconcile

  // ---- provisional items ----

  type Item = (Id, string)

  function ClaimTold(news: News): Option<Item> {
    match news
    case StageNews(EvidenceExtracted(claim, text)) => Some((claim, text))
    case _ => None
  }

  function SourceTold(news: News): Option<Item> {
    match news
    case StageNews(SourceFound(source, url)) => Some((source, url))
    case _ => None
  }

  predicate TellsAt(mine: seq<News>, tell: News -> Option<Item>, i: int, id: Id) {
    0 <= i < |mine| && tell(mine[i]).Some? && tell(mine[i]).value.0 == id
  }

  /** The last event about this item told exactly this. */
  ghost predicate LastTold(mine: seq<News>, tell: News -> Option<Item>, item: Item) {
    exists i :: TellsAt(mine, tell, i, item.0) && tell(mine[i]).value == item
                && forall j :: i < j ==> !TellsAt(mine, tell, j, item.0)
  }

  /** The first event about one item came before any about the other. */
  ghost predicate ToldBefore(mine: seq<News>, tell: News -> Option<Item>, a: Id, b: Id) {
    exists i :: TellsAt(mine, tell, i, a) && forall j :: j <= i ==> !TellsAt(mine, tell, j, b)
  }

  predicate ShownAs(shown: seq<Item>, k: int, id: Id) {
    0 <= k < |shown| && shown[k].0 == id
  }

  /** Everything told is shown, as it was told last, in the order in which it was first told; nothing is shown twice. */
  ghost predicate Collects(mine: seq<News>, tell: News -> Option<Item>, shown: seq<Item>) {
    && (forall i, id :: TellsAt(mine, tell, i, id) ==> exists k :: ShownAs(shown, k, id))
    && (forall k :: 0 <= k < |shown| ==> LastTold(mine, tell, shown[k]))
    && (forall k, l :: 0 <= k < l < |shown| ==> ToldBefore(mine, tell, shown[k].0, shown[l].0))
  }

  function ClaimItems(claims: seq<ProvisionalClaim>): (r: seq<Item>)
    ensures |r| == |claims| && forall k :: 0 <= k < |r| ==> r[k] == (claims[k].id, claims[k].text)
  {
    seq(|claims|, k requires 0 <= k < |claims| => (claims[k].id, claims[k].text))
  }

  function SourceItems(sources: seq<ProvisionalSource>): (r: seq<Item>)
    ensures |r| == |sources| && forall k :: 0 <= k < |r| ==> r[k] == (sources[k].id, sources[k].url)
  {
    seq(|sources|, k requires 0 <= k < |sources| => (sources[k].id, sources[k].url))
  }

  /** The item in its place when one of its identity is shown, else at the end. */
  ghost predicate Placed(shown: seq<Item>, item: Item, after: seq<Item>) {
    if exists k :: ShownAs(shown, k, item.0) then exists k :: ShownAs(shown, k, item.0) && after == shown[k := item]
    else after == shown + [item]
  }

  lemma PlacedBehind(head: Item, shown: seq<Item>, item: Item, after: seq<Item>)
    requires head.0 != item.0 && Placed(shown, item, after)
    ensures Placed([head] + shown, item, [head] + after)
  {
    var longer := [head] + shown;
    assert forall k :: ShownAs(longer, k, item.0) ==> ShownAs(shown, k - 1, item.0);
    if exists k :: ShownAs(shown, k, item.0) {
      var k :| ShownAs(shown, k, item.0) && after == shown[k := item];
      assert ShownAs(longer, k + 1, item.0);
      assert [head] + after == longer[k + 1 := item];
    } else {
      assert [head] + after == longer + [item];
    }
  }

  lemma {:induction false} ClaimIsPlaced(claims: seq<ProvisionalClaim>, claim: ProvisionalClaim)
    ensures Placed(ClaimItems(claims), (claim.id, claim.text), ClaimItems(UpsertClaim(claims, claim)))
  {
    var shown, item, after := ClaimItems(claims), (claim.id, claim.text), ClaimItems(UpsertClaim(claims, claim));
    if claims == [] {
      assert after == shown + [item];
    } else if claims[0].id == claim.id {
      assert ShownAs(shown, 0, claim.id) && after == shown[0 := item];
    } else {
      ClaimIsPlaced(claims[1..], claim);
      assert shown == [shown[0]] + ClaimItems(claims[1..]);
      assert after == [shown[0]] + ClaimItems(UpsertClaim(claims[1..], claim));
      PlacedBehind(shown[0], ClaimItems(claims[1..]), item, ClaimItems(UpsertClaim(claims[1..], claim)));
    }
  }

  lemma {:induction false} SourceIsPlaced(sources: seq<ProvisionalSource>, source: ProvisionalSource)
    ensures Placed(SourceItems(sources), (source.id, source.url), SourceItems(UpsertSource(sources, source)))
  {
    var shown, item, after := SourceItems(sources), (source.id, source.url), SourceItems(UpsertSource(sources, source));
    if sources == [] {
      assert after == shown + [item];
    } else if sources[0].id == source.id {
      assert ShownAs(shown, 0, source.id) && after == shown[0 := item];
    } else {
      SourceIsPlaced(sources[1..], source);
      assert shown == [shown[0]] + SourceItems(sources[1..]);
      assert after == [shown[0]] + SourceItems(UpsertSource(sources[1..], source));
      PlacedBehind(shown[0], SourceItems(sources[1..]), item, SourceItems(UpsertSource(sources[1..], source)));
    }
  }

  // ---- one more event ----

  lemma TellsMore(mine: seq<News>, tell: News -> Option<Item>, news: News)
    ensures forall i, id :: i < |mine| ==> (TellsAt(mine + [news], tell, i, id) <==> TellsAt(mine, tell, i, id))
    ensures forall i, id :: TellsAt(mine + [news], tell, i, id) && |mine| <= i ==>
              i == |mine| && tell(news).Some? && tell(news).value.0 == id
  {
  }

  lemma LastToldStays(mine: seq<News>, tell: News -> Option<Item>, news: News, item: Item)
    requires LastTold(mine, tell, item) && (tell(news).Some? ==> tell(news).value.0 != item.0)
    ensures LastTold(mine + [news], tell, item)
  {
    TellsMore(mine, tell, news);
    var i :| TellsAt(mine, tell, i, item.0) && tell(mine[i]).value == item
             && forall j :: i < j ==> !TellsAt(mine, tell, j, item.0);
    assert TellsAt(mine + [news], tell, i, item.0);
  }

  lemma ToldBeforeStays(mine: seq<News>, tell: News -> Option<Item>, news: News, a: Id, b: Id)
    requires ToldBefore(mine, tell, a, b)
    ensures ToldBefore(mine + [news], tell, a, b)
  {
    TellsMore(mine, tell, news);
    var i :| TellsAt(mine, tell, i, a) && forall j :: j <= i ==> !TellsAt(mine, tell, j, b);
    assert TellsAt(mine + [news], tell, i, a);
  }

  lemma JustTold(mine: seq<News>, tell: News -> Option<Item>, news: News)
    requires tell(news).Some?
    ensures LastTold(mine + [news], tell, tell(news).value)
  {
    assert TellsAt(mine + [news], tell, |mine|, tell(news).value.0);
  }

  lemma OtherNewsCollects(mine: seq<News>, tell: News -> Option<Item>, shown: seq<Item>, news: News)
    requires Collects(mine, tell, shown) && tell(news).None?
    ensures Collects(mine + [news], tell, shown)
  {
    var longer := mine + [news];
    TellsMore(mine, tell, news);
    forall k | 0 <= k < |shown| ensures LastTold(longer, tell, shown[k]) {
      LastToldStays(mine, tell, news, shown[k]);
    }
    forall k, l | 0 <= k < l < |shown| ensures ToldBefore(longer, tell, shown[k].0, shown[l].0) {
      ToldBeforeStays(mine, tell, news, shown[k].0, shown[l].0);
    }
    hide LastTold, ToldBefore;
  }

  lemma KnownItemCollects(mine: seq<News>, tell: News -> Option<Item>, shown: seq<Item>, news: News, k: int)
    requires Collects(mine, tell, shown) && tell(news).Some? && ShownAs(shown, k, tell(news).value.0)
    ensures Collects(mine + [news], tell, shown[k := tell(news).value])
  {
    var longer, item := mine + [news], tell(news).value;
    var after := shown[k := item];
    TellsMore(mine, tell, news);
    JustTold(mine, tell, news);
    forall l, m | 0 <= l < m < |shown| ensures ToldBefore(longer, tell, shown[l].0, shown[m].0) && shown[l].0 != shown[m].0 {
      assert ToldBefore(mine, tell, shown[l].0, shown[m].0);
      ToldBeforeStays(mine, tell, news, shown[l].0, shown[m].0);
    }
    forall l | 0 <= l < |after| ensures LastTold(longer, tell, after[l]) {
      if l != k {
        LastToldStays(mine, tell, news, shown[l]);
      }
    }
    hide LastTold, ToldBefore;
    assert forall l, id :: ShownAs(shown, l, id) <==> ShownAs(after, l, id);
  }

  lemma NewItemCollects(mine: seq<News>, tell: News -> Option<Item>, shown: seq<Item>, news: News)
    requires Collects(mine, tell, shown) && tell(news).Some? && forall k :: !ShownAs(shown, k, tell(news).value.0)
    ensures Collects(mine + [news], tell, shown + [tell(news).value])
  {
    var longer, item := mine + [news], tell(news).value;
    var after := shown + [item];
    TellsMore(mine, tell, news);
    JustTold(mine, tell, news);
    assert forall i :: !TellsAt(mine, tell, i, item.0);
    forall k | 0 <= k < |after| ensures LastTold(longer, tell, after[k]) {
      if k < |shown| {
        assert ShownAs(shown, k, shown[k].0);
        LastToldStays(mine, tell, news, shown[k]);
      }
    }
    forall k, l | 0 <= k < l < |after| ensures ToldBefore(longer, tell, after[k].0, after[l].0) {
      if l < |shown| {
        ToldBeforeStays(mine, tell, news, shown[k].0, shown[l].0);
      } else {
        assert LastTold(mine, tell, shown[k]);
        var i :| TellsAt(mine, tell, i, shown[k].0);
        assert TellsAt(longer, tell, i, shown[k].0) && forall j :: j <= i ==> !TellsAt(longer, tell, j, item.0);
      }
    }
    hide LastTold, ToldBefore;
    assert forall k, id :: ShownAs(shown, k, id) ==> ShownAs(after, k, id);
    assert ShownAs(after, |shown|, item.0);
  }

  lemma PlacedCollects(mine: seq<News>, tell: News -> Option<Item>, shown: seq<Item>, news: News, after: seq<Item>)
    requires Collects(mine, tell, shown)
    requires if tell(news).None? then after == shown else Placed(shown, tell(news).value, after)
    ensures Collects(mine + [news], tell, after)
  {
    hide Collects;
    if tell(news).None? {
      OtherNewsCollects(mine, tell, shown, news);
    } else if exists k :: ShownAs(shown, k, tell(news).value.0) {
      var k :| ShownAs(shown, k, tell(news).value.0) && after == shown[k := tell(news).value];
      KnownItemCollects(mine, tell, shown, news, k);
    } else {
      NewItemCollects(mine, tell, shown, news);
    }
  }

  // ---- stage and cancellation ----

  /** The stage that an event puts on show, if it says anything about stages. */
  function StageTold(news: News): Option<Option<StageName>> {
    match news
    case StageStarted(stage, _) => Some(Some(stage))
    case StageDone(stage) => Some(Some(stage))
    case RetryRequested(_) => Some(None)
    case PatchIsReady(_, _) => Some(None)
    case RunCompleted(_, _) => Some(None)
    case RunFailed(_, _) => Some(None)
    case RunCancelled(_) => Some(None)
    case _ => None
  }

  function CancellationTold(news: News): Option<CancellationState> {
    match news
    case RunCancelled(_) => Some(WasCancelled)
    case RunFailed(_, _) => Some(NotRequested)
    case RetryRequested(_) => Some(NotRequested)
    case RunStarted(_, _, _) => Some(NotRequested)
    case RunResumed(_, _, _) => Some(NotRequested)
    case _ => None
  }

  /** The last event that tells anything tells this, or none does and it is the value at the start. */
  ghost predicate Latest<T>(mine: seq<News>, tell: News -> Option<T>, start: T, shown: T) {
    || (shown == start && forall i :: 0 <= i < |mine| ==> tell(mine[i]).None?)
    || exists i :: 0 <= i < |mine| && tell(mine[i]) == Some(shown) && forall j :: i < j < |mine| ==> tell(mine[j]).None?
  }

  lemma LatestMore<T>(mine: seq<News>, tell: News -> Option<T>, start: T, shown: T, news: News)
    requires Latest(mine, tell, start, shown)
    ensures Latest(mine + [news], tell, start, if tell(news).Some? then tell(news).value else shown)
  {
    var longer := mine + [news];
    if tell(news).Some? {
      assert tell(longer[|mine|]) == Some(tell(news).value);
    } else if exists i :: 0 <= i < |mine| && tell(mine[i]) == Some(shown) && forall j :: i < j < |mine| ==> tell(mine[j]).None? {
      var i :| 0 <= i < |mine| && tell(mine[i]) == Some(shown) && forall j :: i < j < |mine| ==> tell(mine[j]).None?;
      assert tell(longer[i]) == Some(shown);
    }
  }

  // ---- the whole view ----

  /** The sources and claims of a view are what these events told. */
  ghost predicate ShowsItems(mine: seq<News>, view: View) {
    Collects(mine, ClaimTold, ClaimItems(view.claims)) && Collects(mine, SourceTold, SourceItems(view.sources))
  }

  ghost predicate Tells(mine: seq<News>, view: View) {
    && ShowsItems(mine, view)
    && Latest(mine, StageTold, None, view.currentStage) && Latest(mine, CancellationTold, NotRequested, view.cancellation)
  }

  lemma ApplyShows(mine: seq<News>, view: View, news: News)
    requires ShowsItems(mine, view)
    ensures ShowsItems(mine + [news], ApplyNews(view, news))
  {
    var after := ApplyNews(view, news);
    if ClaimTold(news).Some? {
      ClaimIsPlaced(view.claims, ProvisionalClaim(news.progress.claim, news.progress.text));
    }
    if SourceTold(news).Some? {
      SourceIsPlaced(view.sources, ProvisionalSource(news.progress.source, news.progress.url));
    }
    hide Collects, Placed, UpsertClaim, UpsertSource;
    PlacedCollects(mine, ClaimTold, ClaimItems(view.claims), news, ClaimItems(after.claims));
    PlacedCollects(mine, SourceTold, SourceItems(view.sources), news, SourceItems(after.sources));
  }

  lemma StageIsLatest(mine: seq<News>, view: View, news: News)
    requires Latest(mine, StageTold, None, view.currentStage) && Latest(mine, CancellationTold, NotRequested, view.cancellation)
    ensures var after := ApplyNews(view, news);
            && Latest(mine + [news], StageTold, None, after.currentStage)
            && Latest(mine + [news], CancellationTold, NotRequested, after.cancellation)
  {
    hide Latest, UpsertClaim, UpsertSource;
    LatestMore(mine, StageTold, None, view.currentStage, news);
    LatestMore(mine, CancellationTold, NotRequested, view.cancellation, news);
  }

  /** However the log went on: the view tells exactly what its events told. */
  lemma {:induction false} ViewTells(mine: seq<News>)
    ensures Tells(mine, Fold(mine))
    decreases |mine|
  {
    if mine != [] {
      var before, news := mine[..|mine| - 1], mine[|mine| - 1];
      ViewTells(before);
      hide ShowsItems, Latest, ApplyNews;
      ApplyShows(before, Fold(before), news);
      StageIsLatest(before, Fold(before), news);
      assert before + [news] == mine;
    } else {
      assert ShowsItems([], EmptyRun(Running));
    }
  }

  // ---- any use of the page ----

  /** The events of a run that the page has taken in since it was last reset: each canvas sequence once. */
  function Heard(p: ClientReconcile.Progress, actions: seq<ProgressAction>, r: Id): seq<News>
    decreases |actions|
  {
    if actions == [] then []
    else
      var before, action := actions[..|actions| - 1], actions[|actions| - 1];
      match action
      case Reset(_) => []
      case Event(row) =>
        Heard(p, before, r)
          + if row.run == r && ReduceAll(p, before).client.cursor < row.canvasSequence then [row.news] else []
      case _ => Heard(p, before, r)
  }

  ghost predicate PageShows(client: Client, r: Id, heard: seq<News>) {
    if r in client.runs then ShowsItems(heard, client.runs[r]) else heard == []
  }

  lemma ActionShows(p: ClientReconcile.Progress, action: ProgressAction, r: Id, heard: seq<News>)
    requires PageShows(p.client, r, heard)
    ensures PageShows(Reduce(p, action).client, r,
      match action
      case Reset(_) => []
      case Event(row) => heard + if row.run == r && p.client.cursor < row.canvasSequence then [row.news] else []
      case _ => heard)
  {
    assert forall status :: ShowsItems([], EmptyRun(status));
    assert heard + [] == heard;
    hide Collects, ApplyNews;
    if action.Event? && action.row.run == r {
      var view := if r in p.client.runs then p.client.runs[r] else EmptyRun(Running);
      ApplyShows(heard, view, action.row.news);
    }
  }

  /** Whatever the page tracks, asks the server, reconnects or is reset to: it shows exactly the sources and claims that
      the events it has taken in since told, and nothing takes one away. */
  lemma {:induction false} PageTells(canvas: Option<Id>, actions: seq<ProgressAction>, r: Id)
    ensures var p := ClientReconcile.Progress(canvas, Idle, Client(0, map[]));
            PageShows(ReduceAll(p, actions).client, r, Heard(p, actions, r))
    decreases |actions|
  {
    if actions != [] {
      var p := ClientReconcile.Progress(canvas, Idle, Client(0, map[]));
      var before := actions[..|actions| - 1];
      PageTells(canvas, before, r);
      hide PageShows, Reduce;
      ActionShows(ReduceAll(p, before), actions[|actions| - 1], r, Heard(p, before, r));
      assert Heard(p, before, r) + [] == Heard(p, before, r);
    }
  }

  // ---- the server's answer ----

  /** An answer replaces everything but the sources and claims; it shows a cancellation that was asked for as such until the
      run is cancelled, and takes no known patch away. */
  lemma AnswerShown(p: ClientReconcile.Progress, r: Id, record: Record)
    ensures var before, after := Shown(p.client, r), Reduce(p, Reconcile(Serialized(r, record))).client;
            && r in after.runs && after.cursor == p.client.cursor
            && (forall q :: q != r ==>
                  (q in after.runs <==> q in p.client.runs) && (q in after.runs ==> after.runs[q] == p.client.runs[q]))
            && var view := after.runs[r];
            && view.status == record.run.status && view.currentStage == record.run.currentStage
            && view.attempt == record.run.attempt && view.maxAttempts == record.run.maxAttempts && view.error == record.run.error
            && (view.cancellation == WasCancelled <==> record.run.status == Cancelled)
            && (view.cancellation == Requested <==> record.run.status != Cancelled && record.run.cancelRequestedAt.Some?)
            && view.patchId == (if record.patch.Some? then Some(record.patch.value.id) else before.patchId)
            && view.sources == before.sources && view.claims == before.claims
  {
  }
}
