/** The bounded queue between the Holder's event loop and its log worker, under any interleaving
    (crates/persist-holder/src/log_worker.rs). Every critical section is one atomic step. */
module LogQueues {
  import opened Bytes
  import opened LogFiles
  import opened LogOutcomes
  import opened LogRetention

  const MAX_LOG_BACKLOG: nat := 8 * 1024 * 1024

  type Path = nat

  datatype Item = Item(session: nat, path: Path, data: seq<byte>)

  datatype Loss = Loss(session: nat, bytes: nat)

  datatype Queue = Queue(items: seq<Item>, bytes: nat, stopping: bool)

  function Size(items: seq<Item>): nat
  {
    if items == [] then 0 else Size(items[..|items| - 1]) + |items[|items| - 1].data|
  }

  lemma {:induction false} SizeAppend(a: seq<Item>, b: seq<Item>)
    ensures Size(a + b) == Size(a) + Size(b)
  {
    if b == [] {
      assert a + b == a;
    } else {
      SizeAppend(a, b[..|b| - 1]);
      InitOfAppend(a, b);
    }
  }

  lemma SizeOne(item: Item)
    ensures Size([item]) == |item.data|
  {
    assert [item][..0] == [];
  }

  lemma SizeHead(items: seq<Item>)
    requires items != []
    ensures Size(items) == |items[0].data| + Size(items[1..])
  {
    SizeAppend([items[0]], items[1..]);
    SizeOne(items[0]);
    assert items == [items[0]] + items[1..];
  }

  /** The count is right and the backlog bounded. */
  ghost predicate QueueSound(q: Queue)
  {
    q.bytes == Size(q.items) <= MAX_LOG_BACKLOG
  }

  predicate Fits(q: Queue, item: Item)
  {
    q.bytes + |item.data| <= MAX_LOG_BACKLOG
  }

  function Offer(q: Queue, item: Item): Queue
  {
    if Fits(q, item) then q.(items := q.items + [item], bytes := q.bytes + |item.data|) else q
  }

  /** What the worker finds when it looks. */
  datatype Look = Wait | Finish | Next(item: Item, rest: Queue)

  function LookInto(q: Queue): Look
    requires q.items != [] ==> |q.items[0].data| <= q.bytes
  {
    if q.items != [] then Next(q.items[0], q.(items := q.items[1..], bytes := q.bytes - |q.items[0].data|))
    else if q.stopping then Finish
    else Wait
  }

  /** An item is refused exactly if it would take the backlog above 8 MiB. */
  lemma OfferKeeps(q: Queue, item: Item)
    requires QueueSound(q)
    ensures QueueSound(Offer(q, item))
    ensures Offer(q, item).items == q.items + (if Size(q.items) + |item.data| <= 8388608 then [item] else [])
    ensures Fits(q, item) <==> Size(q.items) + |item.data| <= 8388608
  {
    assert q.items + [] == q.items;
    SizeAppend(q.items, [item]);
    SizeOne(item);
  }

  lemma LookKeeps(q: Queue)
    requires QueueSound(q) && q.items != []
    ensures |q.items[0].data| <= q.bytes
    ensures LookInto(q).Next? && QueueSound(LookInto(q).rest)
    ensures q.items == [LookInto(q).item] + LookInto(q).rest.items
  {
    SizeHead(q.items);
  }

  /** The shared object. The mutex makes each method one step; the condition variable's wake-ups
      only decide when a waiting worker looks again. */
  class SharedQueue {
    var items: seq<Item>
    var bytes: nat
    var stopping: bool
    var failures: seq<Loss>

    ghost function State(): Queue
      reads this
    {
      Queue(items, bytes, stopping)
    }

    constructor ()
      ensures State() == Queue([], 0, false) && failures == []
    {
      items := [];
      bytes := 0;
      stopping := false;
      failures := [];
    }

    method Enqueue(item: Item) returns (dropped: nat)
      requires QueueSound(State())
      modifies this`items, this`bytes
      ensures State() == Offer(old(State()), item) && QueueSound(State())
      ensures dropped == if Fits(old(State()), item) then 0 else |item.data|
    {
      OfferKeeps(State(), item);
      var newSize := bytes + |item.data|;
      if newSize > MAX_LOG_BACKLOG {
        return |item.data|;
      }
      bytes := newSize;
      items := items + [item];
      dropped := 0;
    }

    method Take() returns (look: Look)
      requires QueueSound(State())
      modifies this`items, this`bytes
      ensures QueueSound(State())
      ensures old(items) != [] ==> |old(items)[0].data| <= old(bytes)
      ensures look == LookInto(old(State()))
      ensures State() == if look.Next? then look.rest else old(State())
    {
      if items == [] {
        return if stopping then Finish else Wait;
      }
      LookKeeps(State());
      var item := items[0];
      items := items[1..];
      bytes := bytes - |item.data|;
      look := Next(item, Queue(items, bytes, stopping));
    }

    method Stop()
      modifies this`stopping
      ensures State() == old(State()).(stopping := true)
    {
      stopping := true;
    }

    method Report(item: Item)
      modifies this`failures
      ensures failures == old(failures) + [Loss(item.session, |item.data|)]
    {
      failures := failures + [Loss(item.session, |item.data|)];
    }

    method TakeFailures() returns (taken: seq<Loss>)
      modifies this`failures
      ensures taken == old(failures) && failures == []
    {
      taken := failures;
      failures := [];
    }
  }

  // ---- The whole pipeline ----------------------------------------------------------------

  /** An item dealt with: whether it counts as written, and what its file has gained by it. */
  datatype Done = Done(item: Item, faults: Faults, ok: bool, gained: seq<byte>)

  function Appended(before: Log, after: Log): seq<byte>
  {
    if |before.written| <= |after.written| then after.written[|before.written|..] else []
  }

  /** Queue, worker and files; then what has happened so far. */
  datatype Pipeline = Pipeline(
    maxFileSize: nat,
    maxFiles: nat,
    queue: Queue,
    hand: Option<Item>,
    exited: bool,
    logs: map<Path, Log>,
    failures: seq<Loss>,
    offered: seq<Item>,
    refused: seq<Item>,
    accepted: seq<Item>,
    done: seq<Done>,
    collected: seq<Loss>)

  function Start(maxFileSize: nat, maxFiles: nat): Pipeline
  {
    Pipeline(maxFileSize, maxFiles, Queue([], 0, false), None, false, map[], [], [], [], [], [], [])
  }

  function LogOf(p: Pipeline, path: Path): Log
  {
    if path in p.logs then p.logs[path] else NO_LOG
  }

  /** Producer and owner on one side, worker on the other, in any order. */
  datatype Turn =
    | Produce(item: Item)
    | Shutdown
    | Collect
    | Pick
    | Process(faults: Faults)

  /** A turn that is not possible just now changes nothing: the worker has one item in hand at a
      time, and shutting down takes the producer's handle away. */
  ghost function Step(p: Pipeline, turn: Turn): Pipeline
    requires Sound(p)
  {
    match turn
    case Produce(item) =>
      if p.queue.stopping then p
      else if Fits(p.queue, item)
      then p.(queue := Offer(p.queue, item), offered := p.offered + [item], accepted := p.accepted + [item])
      else p.(offered := p.offered + [item], refused := p.refused + [item])
    case Shutdown => p.(queue := p.queue.(stopping := true))
    case Collect => p.(collected := p.collected + p.failures, failures := [])
    case Pick =>
      if p.exited || p.hand.Some? then p
      else
        HeadFits(p.queue);
        (match LookInto(p.queue)
         case Wait => p
         case Finish => p.(exited := true)
         case Next(item, rest) => p.(queue := rest, hand := Some(item)))
    case Process(faults) =>
      if p.hand.None? then p
      else
        var item := p.hand.value;
        var (l, ok) := AfterItem(LogOf(p, item.path), item.data, p.maxFileSize, p.maxFiles, faults);
        p.(hand := None, logs := p.logs[item.path := l],
           done := p.done + [Done(item, faults, ok, Appended(LogOf(p, item.path), l))],
           failures := if ok then p.failures else p.failures + [Loss(item.session, |item.data|)])
  }

  lemma HeadFits(q: Queue)
    requires QueueSound(q)
    ensures q.items != [] ==> |q.items[0].data| <= q.bytes
  {
    if q.items != [] {
      LookKeeps(q);
    }
  }

  function ItemsOf(done: seq<Done>): (items: seq<Item>)
    ensures |items| == |done|
  {
    seq(|done|, i requires 0 <= i < |done| => done[i].item)
  }

  function Losses(done: seq<Done>): seq<Loss>
  {
    if done == [] then []
    else
      var last := done[|done| - 1];
      Losses(done[..|done| - 1]) + if last.ok then [] else [Loss(last.item.session, |last.item.data|)]
  }

  /** The jobs done on one file, in order. */
  function JobsOf(done: seq<Done>, path: Path): seq<Job>
  {
    if done == [] then []
    else
      var last := done[|done| - 1];
      JobsOf(done[..|done| - 1], path) + if last.item.path == path then [Job(last.item.data, last.faults)] else []
  }

  function InHand(p: Pipeline): seq<Item>
  {
    if p.hand.Some? then [p.hand.value] else []
  }

  /** Nothing is lost, duplicated or reordered anywhere between acceptance and the files; every
      failure is reported once; and the worker is gone only when there is nothing left to do. */
  ghost predicate Sound(p: Pipeline)
  {
    && QueueSound(p.queue)
    && Size(p.offered) == Size(p.refused) + Size(p.accepted)
    && p.accepted == ItemsOf(p.done) + InHand(p) + p.queue.items
    && p.collected + p.failures == Losses(p.done)
    && (p.exited ==> p.queue.stopping && p.queue.items == [] && p.hand.None?)
    && Filed(p)
  }

  /** Every file is what its own items, in their order, have made of it. */
  ghost predicate Filed(p: Pipeline)
  {
    && (forall path :: HandleHasFile(LogOf(p, path)))
    && (forall path :: LogOf(p, path) == AfterJobs(NO_LOG, JobsOf(p.done, path), p.maxFileSize, p.maxFiles))
    && (forall i :: 0 <= i < |p.done| ==> Judged(p.done, i, p.maxFileSize, p.maxFiles))
  }

  /** A file just before the `i`th item was dealt with. */
  ghost function Before(done: seq<Done>, i: nat, maxFileSize: nat, maxFiles: nat): Log
    requires i < |done|
  {
    AfterJobs(NO_LOG, JobsOf(done[..i], done[i].item.path), maxFileSize, maxFiles)
  }

  /** What is noted about an item is what has happened to its file. */
  ghost predicate Judged(done: seq<Done>, i: nat, maxFileSize: nat, maxFiles: nat)
    requires i < |done|
  {
    var d := done[i];
    var before := Before(done, i, maxFileSize, maxFiles);
    && HandleHasFile(before)
    && var (after, ok) := AfterItem(before, d.item.data, maxFileSize, maxFiles, d.faults);
       d.ok == ok && d.gained == Appended(before, after)
  }

  lemma SameFiles(p: Pipeline, p': Pipeline)
    requires Filed(p) && p'.logs == p.logs && p'.done == p.done
    requires p'.maxFileSize == p.maxFileSize && p'.maxFiles == p.maxFiles
    ensures Filed(p')
  {
    hide AfterJobs, JobsOf, Judged;
    forall path
      ensures HandleHasFile(LogOf(p', path))
      ensures LogOf(p', path) == AfterJobs(NO_LOG, JobsOf(p'.done, path), p'.maxFileSize, p'.maxFiles)
    {
      assert HandleHasFile(LogOf(p, path));
    }
  }

  lemma {:induction false} JobsSnoc(l: Log, jobs: seq<Job>, job: Job, maxFileSize: nat, maxFiles: nat)
    requires HandleHasFile(l)
    ensures AfterJobs(l, jobs + [job], maxFileSize, maxFiles)
         == AfterItem(AfterJobs(l, jobs, maxFileSize, maxFiles), job.data, maxFileSize, maxFiles, job.faults).0
    decreases |jobs|
  {
    hide AfterItem;
    if jobs == [] {
      assert jobs + [job] == [job];
    } else {
      assert (jobs + [job])[1..] == jobs[1..] + [job];
      JobsSnoc(AfterItem(l, jobs[0].data, maxFileSize, maxFiles, jobs[0].faults).0, jobs[1..], job, maxFileSize,
        maxFiles);
    }
  }

  lemma ProcessFiles(p: Pipeline, p': Pipeline, item: Item, faults: Faults)
    requires Filed(p) && HandleHasFile(LogOf(p, item.path))
    requires var (l, ok) := AfterItem(LogOf(p, item.path), item.data, p.maxFileSize, p.maxFiles, faults);
             && p'.logs == p.logs[item.path := l]
             && p'.done == p.done + [Done(item, faults, ok, Appended(LogOf(p, item.path), l))]
    requires p'.maxFileSize == p.maxFileSize && p'.maxFiles == p.maxFiles
    ensures Filed(p')
  {
    hide AfterItem, AfterJobs, Judged;
    assert p'.done[..|p'.done| - 1] == p.done;
    forall i | 0 <= i < |p'.done| ensures Judged(p'.done, i, p'.maxFileSize, p'.maxFiles) {
      if i < |p.done| {
        assert Judged(p.done, i, p.maxFileSize, p.maxFiles);
        StillJudged(p.done, p'.done, i, p.maxFileSize, p.maxFiles);
      } else {
        LastIsJudged(p, p'.done);
      }
    }
    forall path
      ensures HandleHasFile(LogOf(p', path))
      ensures LogOf(p', path) == AfterJobs(NO_LOG, JobsOf(p'.done, path), p.maxFileSize, p.maxFiles)
    {
      assert LogOf(p, path) == AfterJobs(NO_LOG, JobsOf(p.done, path), p.maxFileSize, p.maxFiles);
      if path == item.path {
        JobsSnoc(NO_LOG, JobsOf(p.done, path), Job(item.data, faults), p.maxFileSize, p.maxFiles);
      } else {
        assert JobsOf(p.done, path) + [] == JobsOf(p.done, path);
      }
    }
  }

  lemma StillJudged(done: seq<Done>, done': seq<Done>, i: nat, maxFileSize: nat, maxFiles: nat)
    requires i < |done| <= |done'| && done'[..|done|] == done && Judged(done, i, maxFileSize, maxFiles)
    ensures Judged(done', i, maxFileSize, maxFiles)
  {
    assert done'[i] == done'[..|done|][i];
    assert done'[..i] == done'[..|done|][..i];
    hide AfterItem, AfterJobs, JobsOf;
  }

  lemma LastIsJudged(p: Pipeline, done: seq<Done>)
    requires Filed(p) && |done| == |p.done| + 1 && done[..|p.done|] == p.done
    requires var d := done[|p.done|];
             && HandleHasFile(LogOf(p, d.item.path))
             && var (l, ok) := AfterItem(LogOf(p, d.item.path), d.item.data, p.maxFileSize, p.maxFiles, d.faults);
                d.ok == ok && d.gained == Appended(LogOf(p, d.item.path), l)
    ensures Judged(done, |p.done|, p.maxFileSize, p.maxFiles)
  {
    hide AfterItem, AfterJobs, JobsOf;
  }

  lemma DoneGrows(done: seq<Done>, d: Done)
    ensures ItemsOf(done + [d]) == ItemsOf(done) + [d.item]
    ensures Losses(done + [d]) == Losses(done) + (if d.ok then [] else [Loss(d.item.session, |d.item.data|)])
  {
    assert (done + [d])[..|done|] == done;
  }

  lemma ProcessKeeps(p: Pipeline, faults: Faults)
    requires Sound(p) && p.hand.Some?
    ensures Sound(Step(p, Process(faults)))
  {
    hide AfterItem, AfterJobs, JobsOf, Losses, ItemsOf, Size;
    var item := p.hand.value;
    assert HandleHasFile(LogOf(p, item.path));
    hide Filed, HandleHasFile;
    var (l, ok) := AfterItem(LogOf(p, item.path), item.data, p.maxFileSize, p.maxFiles, faults);
    DoneGrows(p.done, Done(item, faults, ok, Appended(LogOf(p, item.path), l)));
    Associate(p.collected, p.failures, if ok then [] else [Loss(item.session, |item.data|)]);
    assert p.failures + [] == p.failures;
    assert ItemsOf(p.done) + [item] + [] == ItemsOf(p.done) + [item];
    ProcessFiles(p, Step(p, Process(faults)), item, faults);
  }

  lemma PickKeeps(p: Pipeline)
    requires Sound(p)
    ensures Sound(Step(p, Pick))
  {
    HeadFits(p.queue);
    if !p.exited && p.hand.None? && p.queue.items != [] {
      LookKeeps(p.queue);
      hide AfterJobs, JobsOf, Losses, Size, QueueSound, Filed;
      assert p.queue.items == [p.queue.items[0]] + p.queue.items[1..];
      Associate(ItemsOf(p.done), [p.queue.items[0]], p.queue.items[1..]);
      assert ItemsOf(p.done) + [] == ItemsOf(p.done);
    } else {
      hide AfterJobs, JobsOf, Losses, ItemsOf, Size, QueueSound, Filed;
    }
    SameFiles(p, Step(p, Pick));
  }

  lemma OfferCounts(p: Pipeline, item: Item)
    ensures Size(p.offered + [item]) == Size(p.offered) + |item.data|
    ensures Size(p.refused + [item]) == Size(p.refused) + |item.data|
    ensures Size(p.accepted + [item]) == Size(p.accepted) + |item.data|
  {
    SizeAppend(p.offered, [item]);
    SizeAppend(p.refused, [item]);
    SizeAppend(p.accepted, [item]);
    SizeOne(item);
    hide Size;
  }

  lemma TurnKeeps(p: Pipeline, turn: Turn)
    requires Sound(p)
    ensures Sound(Step(p, turn))
    ensures Step(p, turn).maxFileSize == p.maxFileSize && Step(p, turn).maxFiles == p.maxFiles
  {
    hide AfterJobs, JobsOf, Losses, ItemsOf, Filed, Size, AfterItem;
    match turn {
      case Produce(item) =>
        OfferKeeps(p.queue, item);
        OfferCounts(p, item);
        Associate(ItemsOf(p.done) + InHand(p), p.queue.items, [item]);
        SameFiles(p, Step(p, turn));
      case Shutdown =>
        SameFiles(p, Step(p, turn));
      case Collect =>
        assert p.collected + p.failures + [] == p.collected + p.failures;
        SameFiles(p, Step(p, turn));
      case Pick =>
        HeadFits(p.queue);
        hide Sound;
        PickKeeps(p);
      case Process(faults) =>
        if p.hand.Some? {
          hide Sound;
          ProcessKeeps(p, faults);
        }
    }
  }

  ghost function Run(p: Pipeline, turns: seq<Turn>): (r: Pipeline)
    requires Sound(p)
    ensures Sound(r) && r.maxFileSize == p.maxFileSize && r.maxFiles == p.maxFiles
    decreases |turns|
  {
    if turns == [] then p
    else
      var p1 := Step(p, turns[0]);
      assert Sound(p1) && p1.maxFileSize == p.maxFileSize && p1.maxFiles == p.maxFiles by {
        hide Sound, Step;
        TurnKeeps(p, turns[0]);
      }
      Run(p1, turns[1..])
  }

  lemma StartIsSound(maxFileSize: nat, maxFiles: nat)
    ensures Sound(Start(maxFileSize, maxFiles))
  {
  }

  // ---- What this comes to -----------------------------------------------------------------

  lemma {:induction false} LossSizes(done: seq<Done>)
    requires forall i :: 0 <= i < |done| ==> (done[i].ok ==> done[i].gained == done[i].item.data)
    ensures Size(ItemsOf(done)) == Written(done) + Dropped(Losses(done))
  {
    if done != [] {
      hide Size, Dropped, ItemsOf;
      var init := done[..|done| - 1];
      var last := done[|done| - 1];
      LossSizes(init);
      LastSize(done);
      if last.ok {
        assert Losses(init) + [] == Losses(init);
      } else {
        DroppedSnoc(Losses(init), Loss(last.item.session, |last.item.data|));
      }
    }
  }

  lemma LastSize(done: seq<Done>)
    requires done != []
    ensures Size(ItemsOf(done)) == Size(ItemsOf(done[..|done| - 1])) + |done[|done| - 1].item.data|
  {
    assert ItemsOf(done)[..|done| - 1] == ItemsOf(done[..|done| - 1]);
  }

  lemma DroppedSnoc(losses: seq<Loss>, loss: Loss)
    ensures Dropped(losses + [loss]) == Dropped(losses) + loss.bytes
  {
    assert (losses + [loss])[..|losses|] == losses;
  }

  /** What the files have gained by the items written in full. */
  function Written(done: seq<Done>): nat
  {
    if done == [] then 0
    else Written(done[..|done| - 1]) + if done[|done| - 1].ok then |done[|done| - 1].gained| else 0
  }

  function Dropped(losses: seq<Loss>): nat
  {
    if losses == [] then 0 else Dropped(losses[..|losses| - 1]) + losses[|losses| - 1].bytes
  }

  /** What a file has gained, item by item. */
  function GainedBy(done: seq<Done>, path: Path): seq<byte>
  {
    if done == [] then []
    else
      GainedBy(done[..|done| - 1], path) + if done[|done| - 1].item.path == path then done[|done| - 1].gained else []
  }

  /** What is missing from a file of the items that were reported as lost. */
  function MissingFrom(done: seq<Done>, path: Path): nat
  {
    if done == [] then 0
    else
      var d := done[|done| - 1];
      MissingFrom(done[..|done| - 1], path)
      + if d.item.path == path && !d.ok && |d.gained| <= |d.item.data| then |d.item.data| - |d.gained| else 0
  }

  function SizeFor(items: seq<Item>, path: Path): nat
  {
    if items == [] then 0
    else
      SizeFor(items[..|items| - 1], path)
      + if items[|items| - 1].path == path then |items[|items| - 1].data| else 0
  }

  lemma {:induction false} SizeForAppend(a: seq<Item>, b: seq<Item>, path: Path)
    ensures SizeFor(a + b, path) == SizeFor(a, path) + SizeFor(b, path)
  {
    if b == [] {
      assert a + b == a;
    } else {
      SizeForAppend(a, b[..|b| - 1], path);
      InitOfAppend(a, b);
    }
  }

  /** An item is reported as lost exactly if a call it needed has failed; its file has gained all of
      it, or the beginning that was written before. */
  lemma ItemsAreJudged(p: Pipeline, i: nat)
    requires Sound(p) && i < |p.done|
    ensures var d := p.done[i];
            var before := Before(p.done, i, p.maxFileSize, p.maxFiles);
            && (d.ok <==> !CallFails(before, d.item.data, p.maxFileSize, p.maxFiles, d.faults))
            && d.gained == Gain(before, d.item.data, p.maxFileSize, p.maxFiles, d.faults)
            && d.gained <= d.item.data && (d.ok ==> d.gained == d.item.data)
  {
    assert Judged(p.done, i, p.maxFileSize, p.maxFiles);
    var d := p.done[i];
    var before := Before(p.done, i, p.maxFileSize, p.maxFiles);
    hide Sound, Before, CallFails, Gain, AfterItem;
    ItemOutcome(before, d.item.data, p.maxFileSize, p.maxFiles, d.faults);
    GainIsAPrefix(before, d.item.data, p.maxFileSize, p.maxFiles, d.faults);
  }

  /** Every file holds what the items have gained it, and of the items for it nothing else is missing
      than the rest of those reported. */
  lemma {:induction false} FilesGain(done: seq<Done>, path: Path, maxFileSize: nat, maxFiles: nat)
    requires forall i :: 0 <= i < |done| ==> Judged(done, i, maxFileSize, maxFiles)
    ensures AfterJobs(NO_LOG, JobsOf(done, path), maxFileSize, maxFiles).written == GainedBy(done, path)
    ensures SizeFor(ItemsOf(done), path) == |GainedBy(done, path)| + MissingFrom(done, path)
    decreases |done|
  {
    if done != [] {
      var last := |done| - 1;
      var init := done[..last];
      hide AfterJobs, Judged, JobsOf;
      forall i | 0 <= i < last ensures Judged(init, i, maxFileSize, maxFiles) {
        assert Judged(done, i, maxFileSize, maxFiles);
        StillJudgedBefore(done, i, maxFileSize, maxFiles);
      }
      FilesGain(init, path, maxFileSize, maxFiles);
      assert ItemsOf(done)[..last] == ItemsOf(init);
      assert Judged(done, last, maxFileSize, maxFiles);
      LastGains(done, path, maxFileSize, maxFiles);
    } else {
      assert JobsOf(done, path) == [];
    }
  }

  lemma StillJudgedBefore(done: seq<Done>, i: nat, maxFileSize: nat, maxFiles: nat)
    requires i < |done| - 1 && Judged(done, i, maxFileSize, maxFiles)
    ensures Judged(done[..|done| - 1], i, maxFileSize, maxFiles)
  {
    var init := done[..|done| - 1];
    assert init[i] == done[i] && init[..i] == done[..i];
    hide AfterItem, AfterJobs, JobsOf;
  }

  lemma LastGains(done: seq<Done>, path: Path, maxFileSize: nat, maxFiles: nat)
    requires done != [] && Judged(done, |done| - 1, maxFileSize, maxFiles)
    ensures var d := done[|done| - 1];
            AfterJobs(NO_LOG, JobsOf(done, path), maxFileSize, maxFiles).written
            == AfterJobs(NO_LOG, JobsOf(done[..|done| - 1], path), maxFileSize, maxFiles).written
               + (if d.item.path == path then d.gained else [])
    ensures var d := done[|done| - 1]; |d.gained| <= |d.item.data| && (d.ok ==> d.gained == d.item.data)
  {
    var d := done[|done| - 1];
    var jobs := JobsOf(done[..|done| - 1], path);
    var before := Before(done, |done| - 1, maxFileSize, maxFiles);
    ItemOutcome(before, d.item.data, maxFileSize, maxFiles, d.faults);
    GainIsAPrefix(before, d.item.data, maxFileSize, maxFiles, d.faults);
    hide AfterItem, AfterJobs, Gain, CallFails;
    if d.item.path == path {
      assert HandleHasFile(NO_LOG);
      JobsSnoc(NO_LOG, jobs, Job(d.item.data, d.faults), maxFileSize, maxFiles);
    } else {
      assert jobs + [] == jobs;
      var written := AfterJobs(NO_LOG, jobs, maxFileSize, maxFiles).written;
      assert written + [] == written;
    }
  }

  /** Conservation, at every moment of every interleaving: bytes offered are refused, written,
      reported lost, in the worker's hand or still queued, and the backlog never exceeds 8 MiB. */
  lemma BytesAreConserved(maxFileSize: nat, maxFiles: nat, turns: seq<Turn>)
    ensures Sound(Start(maxFileSize, maxFiles))
    ensures var p := Run(Start(maxFileSize, maxFiles), turns);
            && Size(p.offered) == Size(p.refused) + Size(p.accepted)
            && Size(p.accepted) == Written(p.done) + Dropped(p.collected + p.failures) + Size(InHand(p)) + p.queue.bytes
            && p.queue.bytes <= MAX_LOG_BACKLOG
  {
    StartIsSound(maxFileSize, maxFiles);
    var p := Run(Start(maxFileSize, maxFiles), turns);
    forall i | 0 <= i < |p.done| ensures p.done[i].ok ==> p.done[i].gained == p.done[i].item.data {
      hide Run, Sound;
      ItemsAreJudged(p, i);
    }
    hide Run, AfterJobs, JobsOf, Written, Dropped, Losses, ItemsOf, Size, Judged;
    LossSizes(p.done);
    SizeAppend(ItemsOf(p.done) + InHand(p), p.queue.items);
    SizeAppend(ItemsOf(p.done), InHand(p));
  }

  /** The same for each file, in terms of the bytes it has gained: what was accepted for it has been
      appended to it, is missing of items reported as lost, is in hand or is still queued. */
  lemma EveryFileIsAccountedFor(maxFileSize: nat, maxFiles: nat, turns: seq<Turn>, path: Path)
    ensures Sound(Start(maxFileSize, maxFiles))
    ensures var p := Run(Start(maxFileSize, maxFiles), turns);
            && LogOf(p, path).written == GainedBy(p.done, path)
            && SizeFor(p.accepted, path)
               == |LogOf(p, path).written| + MissingFrom(p.done, path)
                  + SizeFor(InHand(p), path) + SizeFor(p.queue.items, path)
  {
    StartIsSound(maxFileSize, maxFiles);
    var p := Run(Start(maxFileSize, maxFiles), turns);
    assert LogOf(p, path) == AfterJobs(NO_LOG, JobsOf(p.done, path), p.maxFileSize, p.maxFiles);
    assert forall i :: 0 <= i < |p.done| ==> Judged(p.done, i, p.maxFileSize, p.maxFiles);
    assert p.accepted == ItemsOf(p.done) + InHand(p) + p.queue.items;
    hide *;
    FilesGain(p.done, path, p.maxFileSize, p.maxFiles);
    SizeForAppend(ItemsOf(p.done) + InHand(p), p.queue.items, path);
    SizeForAppend(ItemsOf(p.done), InHand(p), path);
  }

  /** The Holder is told of exactly the items for which a call failed, in order, and of their whole
      size. */
  lemma FailuresAreReported(maxFileSize: nat, maxFiles: nat, turns: seq<Turn>)
    ensures Sound(Start(maxFileSize, maxFiles))
    ensures var p := Run(Start(maxFileSize, maxFiles), turns);
            && p.collected + p.failures == Losses(p.done)
            && forall i :: 0 <= i < |p.done| ==>
                 (p.done[i].ok <==> !CallFails(Before(p.done, i, maxFileSize, maxFiles), p.done[i].item.data,
                                               maxFileSize, maxFiles, p.done[i].faults))
  {
    StartIsSound(maxFileSize, maxFiles);
    var p := Run(Start(maxFileSize, maxFiles), turns);
    forall i | 0 <= i < |p.done|
      ensures p.done[i].ok <==> !CallFails(Before(p.done, i, maxFileSize, maxFiles), p.done[i].item.data,
                                           maxFileSize, maxFiles, p.done[i].faults)
    {
      hide Run, Sound;
      ItemsAreJudged(p, i);
    }
  }

  /** Items leave in the order they were accepted, and none is accepted after shutdown begins, so
      once the worker is gone every accepted item has been dealt with. */
  lemma ShutdownLosesNothing(maxFileSize: nat, maxFiles: nat, turns: seq<Turn>)
    ensures Sound(Start(maxFileSize, maxFiles))
    ensures var p := Run(Start(maxFileSize, maxFiles), turns);
            && ItemsOf(p.done) <= p.accepted
            && (p.exited ==> ItemsOf(p.done) == p.accepted)
  {
    StartIsSound(maxFileSize, maxFiles);
    var p := Run(Start(maxFileSize, maxFiles), turns);
    hide Run, AfterJobs, JobsOf, Losses, ItemsOf, Size;
    Associate(ItemsOf(p.done), InHand(p), p.queue.items);
    if p.exited {
      assert ItemsOf(p.done) + [] + [] == ItemsOf(p.done);
    }
  }

  lemma {:induction false} RunAppend(p: Pipeline, a: seq<Turn>, b: seq<Turn>)
    requires Sound(p)
    ensures Run(p, a + b) == Run(Run(p, a), b)
    decreases |a|
  {
    hide Sound, Step;
    if a == [] {
      assert a + b == b;
    } else {
      assert (a + b)[0] == a[0] && (a + b)[1..] == a[1..] + b;
      RunStep(p, a);
      RunStep(p, a + b);
      RunAppend(Step(p, a[0]), a[1..], b);
    }
  }

  lemma RunStep(p: Pipeline, turns: seq<Turn>)
    requires Sound(p) && turns != []
    ensures Sound(Step(p, turns[0])) && Run(p, turns) == Run(Step(p, turns[0]), turns[1..])
  {
    TurnKeeps(p, turns[0]);
    hide Sound, Step;
  }

  /** Dealing with what is in hand, and taking the next item if there is one. */
  lemma OneTurn(p: Pipeline, faults: Faults)
    requires Sound(p) && p.queue.stopping && !p.exited
    ensures Sound(Step(p, Process(faults)))
    ensures var p' := Step(Step(p, Process(faults)), Pick);
            && p'.accepted == p.accepted && p'.queue.stopping
            && (if p.queue.items == [] then p'.exited
                else !p'.exited && p'.hand == Some(p.queue.items[0]) && p'.queue.items == p.queue.items[1..])
  {
    TurnKeeps(p, Process(faults));
    hide Step, Sound;
    ProcessEmptiesTheHand(p, faults);
    PickTakesTheFirst(Step(p, Process(faults)));
  }

  lemma ProcessEmptiesTheHand(p: Pipeline, faults: Faults)
    requires Sound(p)
    ensures var p' := Step(p, Process(faults));
            p'.hand.None? && p'.queue == p.queue && p'.accepted == p.accepted && p'.exited == p.exited
  {
    hide AfterItem, AfterJobs, JobsOf, Losses, ItemsOf, Size, Appended;
  }

  lemma PickTakesTheFirst(p: Pipeline)
    requires Sound(p) && p.hand.None? && !p.exited && p.queue.stopping
    ensures var p' := Step(p, Pick);
            && p'.accepted == p.accepted && p'.queue.stopping
            && (if p.queue.items == [] then p'.exited
                else !p'.exited && p'.hand == Some(p.queue.items[0]) && p'.queue.items == p.queue.items[1..])
  {
    HeadFits(p.queue);
    hide AfterJobs, JobsOf, Losses, ItemsOf, Size, Filed;
  }

  lemma RunTwo(p: Pipeline, a: Turn, b: Turn)
    requires Sound(p)
    ensures Sound(Step(p, a)) && Sound(Step(Step(p, a), b)) && Run(p, [a, b]) == Step(Step(p, a), b)
  {
    hide Sound, Step, Run;
    var both, second := [a, b], [b];
    var none: seq<Turn> := [];
    assert both[0] == a && both[1..] == second && second[0] == b && second[1..] == none;
    RunStep(p, both);
    RunStep(Step(p, a), second);
    RunNothing(Step(Step(p, a), b));
  }

  lemma RunNothing(p: Pipeline)
    requires Sound(p)
    ensures Run(p, []) == p
  {
    hide Sound;
  }

  /** From any state the worker, once it has been told to stop, deals with everything accepted and
      goes, whatever fails on the way. */
  lemma {:induction false} WorkerFinishes(p: Pipeline, faults: Faults) returns (turns: seq<Turn>)
    requires Sound(p) && p.queue.stopping
    ensures forall i :: 0 <= i < |turns| ==> turns[i] == Process(faults) || turns[i] == Pick
    ensures Run(p, turns).exited && Run(p, turns).accepted == p.accepted
    ensures ItemsOf(Run(p, turns).done) == p.accepted
    decreases |p.queue.items|
  {
    if p.exited {
      turns := [];
      hide ItemsOf;
      ExitedIsDone(p);
      return;
    }
    hide Sound, Step, ItemsOf, Run;
    var first := [Process(faults), Pick];
    TwoTurns(p, faults);
    var p2 := Run(p, first);
    if p.queue.items == [] {
      turns := first;
      ExitedIsDone(p2);
    } else {
      var rest := WorkerFinishes(p2, faults);
      turns := first + rest;
      RunAppend(p, first, rest);
    }
  }

  lemma TwoTurns(p: Pipeline, faults: Faults)
    requires Sound(p) && p.queue.stopping && !p.exited
    ensures var p' := Run(p, [Process(faults), Pick]);
            && Sound(p') && p'.accepted == p.accepted && p'.queue.stopping
            && (if p.queue.items == [] then p'.exited else |p'.queue.items| < |p.queue.items|)
  {
    hide Sound, Step, Run;
    OneTurn(p, faults);
    RunTwo(p, Process(faults), Pick);
  }

  lemma ExitedIsDone(p: Pipeline)
    requires Sound(p) && p.exited
    ensures ItemsOf(p.done) == p.accepted
  {
    hide AfterJobs, JobsOf, Losses, ItemsOf, Size, Filed;
    assert ItemsOf(p.done) + [] + [] == ItemsOf(p.done);
  }

  /** The data a session's file was offered, in order. */
  function DataFor(items: seq<Item>, path: Path): seq<seq<byte>>
  {
    if items == [] then []
    else
      DataFor(items[..|items| - 1], path)
      + if items[|items| - 1].path == path then [items[|items| - 1].data] else []
  }

  ghost predicate AllClean(done: seq<Done>)
  {
    forall i :: 0 <= i < |done| ==> done[i].faults == NO_FAULTS
  }

  lemma {:induction false} CleanJobs(done: seq<Done>, path: Path)
    requires AllClean(done)
    ensures JobsOf(done, path) == Clean(DataFor(ItemsOf(done), path))
  {
    if done != [] {
      var init := done[..|done| - 1];
      CleanJobs(init, path);
      assert ItemsOf(done)[..|done| - 1] == ItemsOf(init);
      var data := DataFor(ItemsOf(init), path);
      assert Clean(data + [done[|done| - 1].item.data]) == Clean(data) + [Job(done[|done| - 1].item.data, NO_FAULTS)];
      assert data + [] == data && Clean(data) + [] == Clean(data);
    }
  }

  /** Without I/O failures nothing is reported as lost. */
  lemma CleanRunsReportNothing(maxFileSize: nat, maxFiles: nat, turns: seq<Turn>)
    ensures Sound(Start(maxFileSize, maxFiles))
    ensures var p := Run(Start(maxFileSize, maxFiles), turns);
            AllClean(p.done) ==> p.collected == [] && p.failures == []
  {
    FailuresAreReported(maxFileSize, maxFiles, turns);
    var p := Run(Start(maxFileSize, maxFiles), turns);
    hide Run, Sound, Losses, Before, CallFails;
    if AllClean(p.done) {
      forall i | 0 <= i < |p.done| ensures p.done[i].ok {
        CleanItemsSucceed(Before(p.done, i, maxFileSize, maxFiles), p.done[i].item.data, maxFileSize, maxFiles);
      }
      NothingLost(p.done);
    }
  }

  lemma {:induction false} NothingLost(done: seq<Done>)
    requires forall i :: 0 <= i < |done| ==> done[i].ok
    ensures Losses(done) == []
  {
    if done != [] {
      NothingLost(done[..|done| - 1]);
    }
  }

  /** End to end: after a shutdown without I/O failures, each file's log has had every accepted byte
      written to it in order, keeps the end of that stream, and keeps more than half a set of files
      once anything has been lost. */
  lemma AcceptedOutputReachesTheLog(maxFileSize: nat, maxFiles: nat, turns: seq<Turn>, path: Path)
    requires maxFileSize < U64 - 1
    ensures Sound(Start(maxFileSize, maxFiles))
    ensures var p := Run(Start(maxFileSize, maxFiles), turns);
            var l := LogOf(p, path);
            var stream := Concat(DataFor(p.accepted, path));
            p.exited && AllClean(p.done) ==>
              && l.written == stream && IsSuffix(Retained(l, maxFiles), stream)
              && (maxFiles > 0 && Retained(l, maxFiles) != stream ==>
                    |Retained(l, maxFiles)| > ((maxFiles + 1) / 2) * maxFileSize)
  {
    StartIsSound(maxFileSize, maxFiles);
    var p := Run(Start(maxFileSize, maxFiles), turns);
    if p.exited && AllClean(p.done) {
      ShutdownLosesNothing(maxFileSize, maxFiles, turns);
      CleanJobs(p.done, path);
      assert LogOf(p, path) == AfterJobs(NO_LOG, JobsOf(p.done, path), maxFileSize, maxFiles);
      hide Run, Sound, Retained, AfterJobs, JobsOf;
      var data := DataFor(p.accepted, path);
      RetentionOfCleanRuns(data, maxFileSize, maxFiles, Longest(data));
    }
  }

  function Longest(items: seq<seq<byte>>): (n: nat)
    ensures forall i :: 0 <= i < |items| ==> |items[i]| <= n
  {
    if items == [] then 0 else Max(|items[|items| - 1]|, Longest(items[..|items| - 1]))
  }
}
