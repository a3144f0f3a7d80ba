/**
 What one turn of the loop in `fill` keeps (internal/audio/stream.go:331-420):
 the shape of the queue, the accounts, and the origin of every frame put out.
 */
module StreamFill {
  import opened GoInt
  import opened StreamModel
  import opened StreamState

  // ---------- the shape of the queue ----------

  function Unread(queue: seq<Queued>): int {
    if queue == [] then 0 else |queue[0].pcm| - queue[0].off + Unread(queue[1..])
  }

  predicate Untouched(c: Queued) {
    !c.eased && c.off == 0 && !c.seam
  }

  /** Only the head may be part-played or decided; nothing is trimmed before it is decided. */
  predicate OnlyTheHead(queue: seq<Queued>) {
    && (forall i | 0 < i < |queue| :: Untouched(queue[i]))
    && (queue != [] && queue[0].off > 0 ==> queue[0].eased)
    && (queue != [] && queue[0].off == 0 ==> !queue[0].seam)
  }

  /** In order of due time, but for a part-played head. */
  predicate DueOrder(queue: seq<Queued>) {
    forall i, j | 0 <= i < j < |queue| && (i > 0 || queue[0].off == 0) :: queue[i].at <= queue[j].at
  }

  /** Every queued chunk is one that was written, and none is queued twice. */
  predicate Labelled(queue: seq<Queued>, written: seq<Written>) {
    && (forall i | 0 <= i < |queue| ::
          && queue[i].id < |written|
          && queue[i].pcm == written[queue[i].id].pcm && queue[i].at == written[queue[i].id].at)
    && (forall i, j | 0 <= i < j < |queue| :: queue[i].id != queue[j].id)
  }

  predicate Shape(queue: seq<Queued>, written: seq<Written>) {
    OffsetsFit(queue) && OnlyTheHead(queue) && DueOrder(queue) && Labelled(queue, written)
  }

  // ---------- the timeline ----------

  /**
   The placement rule. Frame `off` of a chunk goes out at index `place + off` and
   nowhere else, as it was written unless it is smoothed; a chunk that was not placed
   softly has the place its timestamp names. StreamCuts.dfy says which are smoothed.
   */
  predicate FollowsTheRule(cell: Cell, i: int, written: seq<Written>) {
    cell.Played? ==>
      && cell.id < |written| && cell.off < |written[cell.id].pcm|
      && cell.place + cell.off == i
      && (!cell.soft ==> cell.place == cell.due)
      && (cell.seam.Some? ==> cell.soft)
      && (cell.seam.None? ==> cell.value == written[cell.id].pcm[cell.off])
  }

  predicate Timeline(log: seq<Cell>, written: seq<Written>) {
    forall i | 0 <= i < |log| :: FollowsTheRule(log[i], i, written)
  }

  /** A chunk that has been heard has left the queue or is its head, further on. */
  predicate Behind(cell: Cell, queue: seq<Queued>) {
    cell.Played? ==> forall j | 0 <= j < |queue| && queue[j].id == cell.id ::
      j == 0 && cell.off < queue[0].off && cell.place == queue[0].place
  }

  predicate AllBehind(log: seq<Cell>, queue: seq<Queued>) {
    forall i | 0 <= i < |log| :: Behind(log[i], queue)
  }

  /** A chunk keeps the place its first frame went out at. */
  predicate OnePlaceEach(log: seq<Cell>) {
    forall i, j | 0 <= i < j < |log| && log[i].Played? && log[j].Played? && log[i].id == log[j].id ::
      log[i].place == log[j].place
  }

  /** The label of a hard-placed chunk is its place. */
  predicate HardMeansDue(queue: seq<Queued>) {
    queue != [] && queue[0].eased && !queue[0].soft ==> queue[0].place == queue[0].due
  }

  predicate Heard(log: seq<Cell>, queue: seq<Queued>, written: seq<Written>) {
    && Timeline(log, written) && AllBehind(log, queue) && OnePlaceEach(log) && HardMeansDue(queue)
  }

  predicate FillOk(f: Fill, written: seq<Written>) {
    && f.rate > 0 && f.pos <= f.frames && f.index >= 0 && |f.log| == f.index + f.pos
    && Shape(f.queue, written) && f.held == Unread(f.queue)
    && Heard(f.log, f.queue, written)
    && f.filled + f.blended <= f.pos
  }

  lemma QueueFits(f: Fill, written: seq<Written>)
    requires FillOk(f, written)
    ensures OffsetsFit(f.queue)
  {
  }

  /** No frame is made or lost between two points of one call. */
  predicate SameAccounts(f: Fill, g: Fill) {
    && g.held + g.late + g.filled + g.trimmed == f.held + f.late + f.filled + f.trimmed
    && g.rate == f.rate && g.index == f.index && g.frames == f.frames
    && g.origin == f.origin && g.originIndex == f.originIndex
    && g.late >= f.late && f.log <= g.log
  }

  // ---------- each outcome of one turn ----------

  lemma TailKeepsShape(queue: seq<Queued>, written: seq<Written>)
    requires queue != [] && Shape(queue, written)
    ensures Shape(queue[1..], written)
  {
    assert forall i | 0 <= i < |queue[1..]| :: queue[1..][i] == queue[i + 1];
  }

  lemma HeadKeepsShape(queue: seq<Queued>, c: Queued, written: seq<Written>)
    requires queue != [] && Shape(queue, written)
    requires var h := queue[0]; c.id == h.id && c.pcm == h.pcm && c.at == h.at
    requires Unfinished(c) && (c.off > 0 ==> c.eased) && (c.off == 0 ==> !c.seam)
    requires queue[0].off > 0 ==> c.off > 0
    ensures Shape(queue[0 := c], written)
    ensures Unread(queue[0 := c]) == Unread(queue) - (c.off - queue[0].off)
  {
    assert queue[0 := c][1..] == queue[1..];
  }

  lemma DropEmptyKeeps(f: Fill, written: seq<Written>)
    requires f.Working() && FillOk(f, written) && |f.queue[0].pcm| == 0
    ensures var g := f.(queue := f.queue[1..]); FillOk(g, written) && SameAccounts(f, g)
  {
    TailKeepsShape(f.queue, written);
    TailIsBehind(f.log, f.queue, written);
  }

  lemma TailIsBehind(log: seq<Cell>, queue: seq<Queued>, written: seq<Written>)
    requires queue != [] && AllBehind(log, queue) && Shape(queue, written)
    ensures AllBehind(log, queue[1..]) && HardMeansDue(queue[1..])
  {
    var q := queue[1..];
    forall i | 0 <= i < |log| ensures Behind(log[i], q) {
      assert Behind(log[i], queue);
      if log[i].Played? {
        forall j | 0 <= j < |q| ensures q[j].id != log[i].id {
          assert q[j] == queue[j + 1];
        }
      }
    }
    if q != [] {
      assert Untouched(queue[1]);
    }
  }

  /** Deciding a chunk moves it only if nothing of it has been heard. */
  lemma DecideKeepsOk(f: Fill, written: seq<Written>)
    requires f.Working() && FillOk(f, written)
    ensures var g := Decide(f); FillOk(g, written) && SameAccounts(f, g) && g.queue[0].eased
    ensures var g := Decide(f); !f.queue[0].eased ==>
              g.queue[0].due == f.FrameAt(f.queue[0].at)
  {
    var g := Decide(f);
    DecideKeeps(f);
    if !f.queue[0].eased {
      HeadKeepsShape(f.queue, g.queue[0], written);
      assert g.queue == f.queue[0 := g.queue[0]];
      forall i | 0 <= i < |f.log| ensures Behind(f.log[i], g.queue) {
        assert Behind(f.log[i], f.queue);
      }
    }
  }

  lemma DropHeadKeeps(f: Fill, written: seq<Written>)
    requires f.Working() && FillOk(f, written)
    ensures FillOk(DropHead(f), written) && SameAccounts(f, DropHead(f))
  {
    TailKeepsShape(f.queue, written);
    TailIsBehind(f.log, f.queue, written);
  }

  lemma CutHeadKeeps(f: Fill, n: nat, written: seq<Written>)
    requires f.Working() && FillOk(f, written) && f.queue[0].eased
    requires 0 < n < |f.queue[0].pcm| - f.queue[0].off
    ensures FillOk(CutHead(f, n), written) && SameAccounts(f, CutHead(f, n))
  {
    var c, g := f.queue[0], CutHead(f, n);
    var c' := c.(off := c.off + n, seam := true);
    HeadKeepsShape(f.queue, c', written);
    assert g.queue == f.queue[0 := c'];
    forall i | 0 <= i < |f.log| ensures Behind(f.log[i], g.queue) {
      assert Behind(f.log[i], f.queue);
    }
  }

  /** Frames that came from no chunk leave what is known of the chunks alone. */
  lemma SilentCellsKeep(log: seq<Cell>, more: seq<Cell>, queue: seq<Queued>, written: seq<Written>)
    requires Heard(log, queue, written)
    requires forall i | 0 <= i < |more| :: !more[i].Played?
    ensures Heard(log + more, queue, written)
  {
    var all := log + more;
    forall i | 0 <= i < |all| ensures FollowsTheRule(all[i], i, written) && Behind(all[i], queue) {
      if i < |log| {
        assert FollowsTheRule(log[i], i, written) && Behind(log[i], queue);
      } else {
        assert !more[i - |log|].Played?;
      }
    }
    assert forall k | |log| <= k < |all| :: all[k] == more[k - |log|];
    forall i, j | 0 <= i < j < |all| && all[i].Played? && all[j].Played? && all[i].id == all[j].id
      ensures all[i].place == all[j].place
    {
      if j < |log| {
        assert log[i].place == log[j].place;
      }
    }
  }

  lemma WaitForHeadKeeps(f: Fill, n: nat, written: seq<Written>)
    requires f.Working() && FillOk(f, written) && f.queue[0].off < |f.queue[0].pcm|
    requires f.pos + n <= f.frames
    ensures FillOk(WaitForHead(f, n), written) && SameAccounts(f, WaitForHead(f, n))
  {
    var c := f.queue[0];
    if c.soft {
      SilentCellsKeep(f.log, RampCells(f.lastOut, c.pcm[c.off], n), f.queue, written);
    } else {
      SilentCellsKeep(f.log, seq(n, _ => Gap), f.queue, written);
    }
  }

  /** The frames of one copy follow the rule, once each and in order. */
  lemma PlayedCellsFollowTheRule(c: Queued, n: nat, lastOut: Frame, at: int, written: seq<Written>)
    requires c.id < |written| && c.pcm == written[c.id].pcm && c.off + n <= |c.pcm|
    requires c.place + c.off == at && (!c.soft ==> c.place == c.due)
    ensures var cells := PlayedCells(c, n, lastOut);
            forall i | 0 <= i < n ::
              && cells[i].Played? && cells[i].id == c.id && cells[i].place == c.place
              && cells[i].off == c.off + i
              && FollowsTheRule(cells[i], at + i, written)
  {
  }

  lemma PlayedCellsAreHeard(f: Fill, n: nat, queue: seq<Queued>, written: seq<Written>)
    requires f.Working() && FillOk(f, written) && f.queue[0].eased
    requires f.queue[0].off + n <= |f.queue[0].pcm|
    requires f.queue[0].place + f.queue[0].off == f.Want()
    requires forall j | 0 <= j < |queue| && queue[j].id == f.queue[0].id ::
               j == 0 && queue[0].off == f.queue[0].off + n && queue[0].place == f.queue[0].place
    requires forall j | 0 <= j < |queue| && queue[j].id != f.queue[0].id ::
               exists k | 0 < k < |f.queue| :: f.queue[k].id == queue[j].id
    requires HardMeansDue(queue)
    ensures Heard(f.log + PlayedCells(f.queue[0], n, f.lastOut), queue, written)
  {
    var c := f.queue[0];
    var cells := PlayedCells(c, n, f.lastOut);
    var all := f.log + cells;
    PlayedCellsFollowTheRule(c, n, f.lastOut, f.Want(), written);
    forall i | 0 <= i < |all| ensures FollowsTheRule(all[i], i, written) {
      if i < |f.log| {
        assert FollowsTheRule(f.log[i], i, written);
      } else {
        assert all[i] == cells[i - |f.log|];
      }
    }
    forall i | 0 <= i < |all| ensures Behind(all[i], queue) {
      if i < |f.log| {
        assert Behind(f.log[i], f.queue);
        OldCellStaysBehind(f, f.log[i], n, queue, written);
      } else {
        assert all[i] == cells[i - |f.log|];
      }
    }
    forall i, j | 0 <= i < j < |all| && all[i].Played? && all[j].Played? && all[i].id == all[j].id
      ensures all[i].place == all[j].place
    {
      if j < |f.log| {
        assert f.log[i].place == f.log[j].place;
      } else if i < |f.log| {
        assert all[j] == cells[j - |f.log|];
        assert Behind(f.log[i], f.queue);
      } else {
        assert all[i] == cells[i - |f.log|] && all[j] == cells[j - |f.log|];
      }
    }
  }

  lemma OldCellStaysBehind(f: Fill, cell: Cell, n: nat, queue: seq<Queued>, written: seq<Written>)
    requires f.Working() && Behind(cell, f.queue)
    requires forall j | 0 <= j < |queue| && queue[j].id == f.queue[0].id ::
               j == 0 && queue[0].off == f.queue[0].off + n && queue[0].place == f.queue[0].place
    requires forall j | 0 <= j < |queue| && queue[j].id != f.queue[0].id ::
               exists k | 0 < k < |f.queue| :: f.queue[k].id == queue[j].id
    ensures Behind(cell, queue)
  {
    if cell.Played? {
      forall j | 0 <= j < |queue| && queue[j].id == cell.id
        ensures j == 0 && cell.off < queue[0].off && cell.place == queue[0].place
      {
      }
    }
  }

  /** The queue after the head has given up `n` more frames. */
  lemma PlayHeadKeepsShape(f: Fill, n: nat, written: seq<Written>)
    requires f.Working() && FillOk(f, written) && f.queue[0].eased
    requires 0 < n && f.queue[0].off + n <= |f.queue[0].pcm|
    ensures var q, c := PlayHead(f, n).queue, f.queue[0];
      && Shape(q, written) && Unread(q) == Unread(f.queue) - n && HardMeansDue(q)
      && (forall j | 0 <= j < |q| && q[j].id == c.id ::
            j == 0 && q[0].off == c.off + n && q[0].place == c.place)
      && (forall j | 0 <= j < |q| && q[j].id != c.id ::
            exists k | 0 < k < |f.queue| :: f.queue[k].id == q[j].id)
  {
    hide PlayedCells, FollowsTheRule, OnePlaceEach;
    var c, q := f.queue[0], PlayHead(f, n).queue;
    var c' := c.(off := c.off + n, seam := if c.soft then false else c.seam);
    if c'.off == |c.pcm| {
      TailKeepsShape(f.queue, written);
      TailIsBehind(f.log, f.queue, written);
      forall j | 0 <= j < |q| ensures q[j].id != c.id && f.queue[j + 1].id == q[j].id {
      }
    } else {
      HeadKeepsShape(f.queue, c', written);
      assert q == f.queue[0 := c'];
      forall j | 0 <= j < |q| && q[j].id != c.id
        ensures exists k | 0 < k < |f.queue| :: f.queue[k].id == q[j].id
      {
        assert 0 < j && f.queue[j].id == q[j].id;
      }
    }
  }

  lemma PlayHeadKeeps(f: Fill, n: nat, written: seq<Written>)
    requires f.Working() && FillOk(f, written) && f.queue[0].eased
    requires 0 < n && f.queue[0].off + n <= |f.queue[0].pcm| && f.pos + n <= f.frames
    requires f.queue[0].place + f.queue[0].off == f.Want()
    ensures FillOk(PlayHead(f, n), written) && SameAccounts(f, PlayHead(f, n))
  {
    PlayHeadKeepsShape(f, n, written);
    PlayedCellsAreHeard(f, n, PlayHead(f, n).queue, written);
    hide PlayedCells, Heard, Shape, Unread;
  }

  lemma PlacedKeeps(f: Fill, written: seq<Written>)
    requires f.Working() && FillOk(f, written) && f.queue[0].eased
    requires f.queue[0].off < |f.queue[0].pcm|
    ensures FillOk(Placed(f), written) && SameAccounts(f, Placed(f))
  {
    hide Heard, Shape, Unread, DropHead, CutHead, WaitForHead, PlayHead;
    var c, want := f.queue[0], f.Want();
    var start, left := c.place + c.off, |c.pcm| - c.off;
    if start + left <= want {
      DropHeadKeeps(f, written);
      assert Placed(f) == DropHead(f);
    } else if start < want {
      CutHeadKeeps(f, want - start, written);
      assert Placed(f) == CutHead(f, want - start);
    } else if start > want {
      var n := Min(start - want, f.frames - f.pos);
      WaitForHeadKeeps(f, n, written);
      assert Placed(f) == WaitForHead(f, n);
    } else {
      var n := Min(f.frames - f.pos, left);
      PlayHeadKeeps(f, n, written);
      assert Placed(f) == PlayHead(f, n);
    }
  }

  /** One turn of the loop keeps the shape, the accounts and the placement rule. */
  lemma StepKeeps(f: Fill, written: seq<Written>)
    requires f.Working() && FillOk(f, written)
    ensures FillOk(Step(f), written) && SameAccounts(f, Step(f))
  {
    if |f.queue[0].pcm| == 0 {
      DropEmptyKeeps(f, written);
    } else {
      DecideKeepsOk(f, written);
      DecideKeeps(f);
      PlacedKeeps(Decide(f), written);
    }
  }

  /** And so does the whole call. */
  lemma FinishedKeeps(f: Fill, written: seq<Written>)
    requires FillOk(f, written)
    ensures FillOk(Finished(f), written) && SameAccounts(f, Finished(f))
    decreases |f.queue|, f.frames - f.pos, HeadLeft(f)
  {
    if f.pos < f.frames && f.queue != [] {
      StepMakesProgress(f);
      StepKeeps(f, written);
      FinishedKeeps(Step(f), written);
    }
  }
}
