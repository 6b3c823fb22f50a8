/** What a time event handler run must have called back, stated without the
  heap: which blocks fire, at which event times, and what stays pending. */
module Firings {
  import opened EventTime

  /** What the callback of a block does to the time events. */
  datatype Kind =
    | Cyclic(period: nat, phase: nat, autostart: bool)   // registers itself again one period later
    | Alarm                                              // stops the alarm
    | Timeout                                            // ends a task's timed wait

  /** The configured periods and phases are valid relative times. */
  predicate KindsValid(kinds: seq<Kind>) {
    forall b :: 0 <= b < |kinds| && kinds[b].Cyclic? ==>
      0 < kinds[b].period <= TMAX_RELTIM && kinds[b].phase <= TMAX_RELTIM
  }

  datatype Firing = Firing(block: nat, at: int)

  /** The event times at which block b fired, oldest first. */
  function Times(log: seq<Firing>, b: nat): (ts: seq<int>)
  {
    if log == [] then []
    else
      var f := log[|log| - 1];
      Times(log[..|log| - 1], b) + if f.block == b then [f.at] else []
  }

  ghost predicate InOrder(log: seq<Firing>) {
    forall i, j :: 0 <= i < j < |log| ==> log[i].at <= log[j].at
  }

  ghost predicate Upto(log: seq<Firing>, now: int) {
    forall i :: 0 <= i < |log| ==> log[i].at <= now
  }

  /** The firings of a cyclic block that was first due at `first`: no drift. */
  ghost predicate NoDrift(ts: seq<int>, first: int, period: nat) {
    forall k :: 0 <= k < |ts| ==> ts[k] == first + k * period
  }

  /** Block b was called back at exactly the times it should have been up to
    `now`, and is left pending as it should be. */
  ghost predicate BlockDrained(kind: Kind, b: nat, due: map<nat, int>, due': map<nat, int>, ts: seq<int>, now: int) {
    if b !in due then
      ts == [] && b !in due'
    else if kind.Cyclic? then
      b in due' && NoDrift(ts, due[b], kind.period) && due'[b] == due[b] + |ts| * kind.period && now < due'[b]
        && (forall k :: 0 <= k < |ts| ==> ts[k] <= now)
    else if due[b] <= now then
      ts == [due[b]] && b !in due'
    else
      ts == [] && b in due' && due'[b] == due[b]
  }

  ghost predicate Drained(kinds: seq<Kind>, due: map<nat, int>, due': map<nat, int>, log: seq<Firing>, now: int) {
    && InOrder(log) && Upto(log, now)
    && forall b :: 0 <= b < |kinds| ==> BlockDrained(kinds[b], b, due, due', Times(log, b), now)
  }

  lemma {:induction false} TimesAppend(log1: seq<Firing>, log2: seq<Firing>, b: nat)
    ensures Times(log1 + log2, b) == Times(log1, b) + Times(log2, b)
    decreases |log2|
  {
    if log2 == [] {
      assert log1 + log2 == log1;
    } else {
      var n := |log2| - 1;
      TimesAppend(log1, log2[..n], b);
      assert (log1 + log2)[..|log1 + log2| - 1] == log1 + log2[..n];
    }
  }

  lemma {:induction false} TimesUpto(log: seq<Firing>, b: nat, now: int)
    requires Upto(log, now)
    ensures forall k :: 0 <= k < |Times(log, b)| ==> Times(log, b)[k] <= now
  {
    if log != [] {
      TimesUpto(log[..|log| - 1], b, now);
    }
  }

  /** A cyclic block fires at first + k * period for exactly those k for which
    that time has come. */
  lemma CyclicFiresExactly(kind: Kind, b: nat, due: map<nat, int>, due': map<nat, int>, ts: seq<int>, now: int, k: nat)
    requires kind.Cyclic? && kind.period > 0 && b in due
    requires BlockDrained(kind, b, due, due', ts, now)
    ensures k < |ts| <==> due[b] + k * kind.period <= now
  {
    if k >= |ts| {
      assert k * kind.period >= |ts| * kind.period;
    } else {
      assert ts[k] <= now;
    }
  }

  /** Any other block fires once, at the time it was due, if that time has come, and
    is then pending no longer; otherwise it stays as it was. */
  lemma OthersFireOnce(kind: Kind, b: nat, due: map<nat, int>, due': map<nat, int>, ts: seq<int>, now: int)
    requires !kind.Cyclic? && b in due
    requires BlockDrained(kind, b, due, due', ts, now)
    ensures ts == if due[b] <= now then [due[b]] else []
    ensures b in due' <==> now < due[b]
    ensures b in due' ==> due'[b] == due[b]
  {
  }

  lemma CyclicFiringsDetermined(kind: Kind, b: nat, due: map<nat, int>, d1: map<nat, int>, d2: map<nat, int>,
                               ts1: seq<int>, ts2: seq<int>, now: int)
    requires kind.Cyclic? && kind.period > 0 && b in due
    requires BlockDrained(kind, b, due, d1, ts1, now) && BlockDrained(kind, b, due, d2, ts2, now)
    ensures |ts1| == |ts2|
  {
    CyclicFiresExactly(kind, b, due, d1, ts1, now, |ts1|);
    CyclicFiresExactly(kind, b, due, d1, ts1, now, |ts2|);
    CyclicFiresExactly(kind, b, due, d2, ts2, now, |ts1|);
    CyclicFiresExactly(kind, b, due, d2, ts2, now, |ts2|);
  }

  /** The drained state and the firings of every block are determined by the
    pending times alone, whatever order the heap chose among equal times. */
  lemma DrainIsDetermined(kinds: seq<Kind>, due: map<nat, int>, d1: map<nat, int>, d2: map<nat, int>,
                          log1: seq<Firing>, log2: seq<Firing>, now: int, b: nat)
    requires b < |kinds| && (kinds[b].Cyclic? ==> kinds[b].period > 0)
    requires Drained(kinds, due, d1, log1, now) && Drained(kinds, due, d2, log2, now)
    ensures Times(log1, b) == Times(log2, b)
    ensures b in d1 <==> b in d2
    ensures b in d1 ==> d1[b] == d2[b]
  {
    var ts1, ts2 := Times(log1, b), Times(log2, b);
    assert BlockDrained(kinds[b], b, due, d1, ts1, now) && BlockDrained(kinds[b], b, due, d2, ts2, now);
    if b in due && kinds[b].Cyclic? {
      CyclicFiringsDetermined(kinds[b], b, due, d1, d2, ts1, ts2, now);
      forall k | 0 <= k < |ts1| ensures ts1[k] == ts2[k] {
      }
    }
  }

  lemma NoDriftAppend(ts1: seq<int>, ts2: seq<int>, first: int, period: nat)
    requires NoDrift(ts1, first, period) && NoDrift(ts2, first + |ts1| * period, period)
    ensures NoDrift(ts1 + ts2, first, period)
    ensures |ts1 + ts2| * period == |ts1| * period + |ts2| * period
  {
    forall k | |ts1| <= k < |ts1 + ts2| ensures (ts1 + ts2)[k] == first + k * period {
      assert (ts1 + ts2)[k] == ts2[k - |ts1|];
      assert k * period == |ts1| * period + (k - |ts1|) * period;
    }
  }

  lemma BlockDrainCompose(kind: Kind, b: nat, d0: map<nat, int>, d1: map<nat, int>, d2: map<nat, int>,
                          ts1: seq<int>, ts2: seq<int>, n1: int, n2: int)
    requires BlockDrained(kind, b, d0, d1, ts1, n1) && BlockDrained(kind, b, d1, d2, ts2, n2) && n1 <= n2
    ensures BlockDrained(kind, b, d0, d2, ts1 + ts2, n2)
  {
    if b in d0 && kind.Cyclic? {
      NoDriftAppend(ts1, ts2, d0[b], kind.period);
    }
  }

  /** Draining up to one time and then up to a later one is draining up to the
    later one. */
  lemma DrainCompose(kinds: seq<Kind>, d0: map<nat, int>, d1: map<nat, int>, d2: map<nat, int>,
                     log1: seq<Firing>, log2: seq<Firing>, n1: int, n2: int)
    requires Drained(kinds, d0, d1, log1, n1) && Drained(kinds, d1, d2, log2, n2) && n1 <= n2
    requires forall i :: 0 <= i < |log2| ==> n1 <= log2[i].at
    ensures Drained(kinds, d0, d2, log1 + log2, n2)
  {
    forall b | 0 <= b < |kinds|
      ensures BlockDrained(kinds[b], b, d0, d2, Times(log1 + log2, b), n2)
    {
      TimesAppend(log1, log2, b);
      BlockDrainCompose(kinds[b], b, d0, d1, d2, Times(log1, b), Times(log2, b), n1, n2);
    }
  }

  /** How far the blocks below n are behind: the sum of max(0, now + 1 - due). */
  ghost function Backlog(due: map<nat, int>, now: int, n: nat): (s: nat)
  {
    if n == 0 then 0 else Backlog(due, now, n - 1) + Lag(due, now, n - 1)
  }

  ghost function Lag(due: map<nat, int>, now: int, b: nat): nat {
    if b in due && due[b] <= now then now + 1 - due[b] else 0
  }

  /** Firing one expired block shrinks the backlog, even if it registers itself
    again in the past. */
  lemma {:induction false} BacklogShrinks(due: map<nat, int>, due': map<nat, int>, now: int, n: nat, b: nat)
    requires forall c :: c != b ==> (c in due <==> c in due') && (c in due ==> due[c] == due'[c])
    requires Lag(due', now, b) < Lag(due, now, b)
    ensures b < n ==> Backlog(due', now, n) < Backlog(due, now, n)
    ensures b >= n ==> Backlog(due', now, n) == Backlog(due, now, n)
  {
    if n > 0 {
      BacklogShrinks(due, due', now, n - 1, b);
    }
  }

  /** One round of the handler loop: some earliest block is due, is called
    back, and is pending afterwards as its kind says. */
  ghost predicate FiredOne(kinds: seq<Kind>, due: map<nat, int>, due': map<nat, int>, now: int, log: seq<Firing>,
      log': seq<Firing>)
  {
    exists b: nat :: FiredBlock(kinds, due, due', now, log, log', b)
  }

  ghost predicate FiredBlock(kinds: seq<Kind>, due: map<nat, int>, due': map<nat, int>, now: int,
                            log: seq<Firing>, log': seq<Firing>, b: nat)
  {
    && b in due && b < |kinds| && due[b] <= now
    && (forall c :: c in due ==> due[b] <= due[c])
    && log' == log + [Firing(b, due[b])]
    && due' == if kinds[b].Cyclic? then due[b := due[b] + kinds[b].period] else due - {b}
  }

  /** What holds of a log while the handler loop runs: as if drained, except
    that blocks may still be behind. */
  ghost predicate BlockPartly(kind: Kind, b: nat, due: map<nat, int>, due': map<nat, int>, ts: seq<int>) {
    if b !in due then
      ts == [] && b !in due'
    else if kind.Cyclic? then
      b in due' && NoDrift(ts, due[b], kind.period) && due'[b] == due[b] + |ts| * kind.period
    else
      (ts == [due[b]] && b !in due') || (ts == [] && b in due' && due'[b] == due[b])
  }

  ghost predicate Partly(kinds: seq<Kind>, due: map<nat, int>, due': map<nat, int>, log: seq<Firing>, floor: int,
      now: int)
  {
    && InOrder(log) && Upto(log, now)
    && (forall c :: c in due' ==> floor <= due'[c])
    && (forall i :: 0 <= i < |log| ==> floor <= log[i].at)
    && (forall i, c :: 0 <= i < |log| && c in due' ==> log[i].at <= due'[c])
    && forall b :: 0 <= b < |kinds| ==> BlockPartly(kinds[b], b, due, due', Times(log, b))
  }

  lemma PartlyStart(kinds: seq<Kind>, due: map<nat, int>, floor: int, now: int)
    requires forall c :: c in due ==> floor <= due[c]
    ensures Partly(kinds, due, due, [], floor, now)
  {
  }

  lemma PartlyStep(kinds: seq<Kind>, due: map<nat, int>, d1: map<nat, int>, d2: map<nat, int>,
                   log1: seq<Firing>, log2: seq<Firing>, floor: int, now: int)
    requires KindsValid(kinds)
    requires Partly(kinds, due, d1, log1, floor, now) && FiredOne(kinds, d1, d2, now, log1, log2)
    ensures Partly(kinds, due, d2, log2, floor, now)
    ensures Backlog(d2, now, |kinds|) < Backlog(d1, now, |kinds|)
    ensures log2 != []
  {
    var b: nat :| FiredBlock(kinds, d1, d2, now, log1, log2, b);
    BacklogShrinks(d1, d2, now, |kinds|, b);
    forall c | 0 <= c < |kinds| ensures BlockPartly(kinds[c], c, due, d2, Times(log2, c)) {
      BlockPartlyStep(kinds, due, d1, d2, log1, log2, now, b, c);
    }
  }

  lemma BlockPartlyStep(kinds: seq<Kind>, due: map<nat, int>, d1: map<nat, int>, d2: map<nat, int>,
                        log1: seq<Firing>, log2: seq<Firing>, now: int, b: nat, c: nat)
    requires c < |kinds| && BlockPartly(kinds[c], c, due, d1, Times(log1, c))
    requires FiredBlock(kinds, d1, d2, now, log1, log2, b)
    ensures BlockPartly(kinds[c], c, due, d2, Times(log2, c))
  {
    assert log2[..|log2| - 1] == log1;
    if c == b && kinds[b].Cyclic? {
      NextPeriod(|Times(log1, b)|, kinds[b].period);
    }
  }

  lemma NextPeriod(n: nat, p: nat)
    ensures (n + 1) * p == n * p + p
  {
  }

  lemma PartlyDone(kinds: seq<Kind>, due: map<nat, int>, due': map<nat, int>, log: seq<Firing>, floor: int, now: int)
    requires Partly(kinds, due, due', log, floor, now)
    requires forall b :: b in due' ==> now < due'[b]
    ensures Drained(kinds, due, due', log, now)
    ensures forall i :: 0 <= i < |log| ==> floor <= log[i].at
  {
    forall b | 0 <= b < |kinds| ensures BlockDrained(kinds[b], b, due, due', Times(log, b), now) {
      assert BlockPartly(kinds[b], b, due, due', Times(log, b));
      TimesUpto(log, b, now);
      var ts := Times(log, b);
      assert |ts| > 0 ==> ts[0] <= now;
    }
  }

  lemma PutBack(due: map<nat, int>, b: nat, d: int)
    requires b in due
    ensures (due - {b})[b := d] == due[b := d]
  {
  }

  /** The counts elapsed over the first n readings. */
  function Sum(elapsed: seq<nat>, n: nat): (s: nat)
    requires n <= |elapsed|
  {
    if n == 0 then 0 else Sum(elapsed, n - 1) + elapsed[n - 1]
  }
}
