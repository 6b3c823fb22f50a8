/** Event flags: who is released by a pattern, and that nobody released is left
  waiting. */
module EventFlag {
  import opened Bits
  import opened Options
  import opened Senders

  /** The bits waited for, and whether one of them is enough (TWF_ORW). */
  datatype Cond = Cond(waiptn: bv32, orw: bool)

  type Waiter = Sender<Cond>

  datatype Result = Ok | Par | IlUse | TmOut | Blocked

  /** A task whose wait ends, with the pattern it gets. */
  datatype Woken = Woken(task: nat, ptn: bv32)

  predicate Satisfied(ptn: bv32, x: Cond) {
    if x.orw then And(ptn, x.waiptn) != 0 else And(ptn, x.waiptn) == x.waiptn
  }

  function Plus(ptn: bv32, setptn: bv32): bv32 { Or(ptn, setptn) }

  function Only(ptn: bv32, clrptn: bv32): bv32 { And(ptn, clrptn) }

  /** Bit by bit: with TWF_ANDW every bit waited for must be set, with TWF_ORW some
    bit waited for. */
  lemma ConditionBits(ptn: bv32, x: Cond)
    ensures x.orw ==> (Satisfied(ptn, x) <==> exists i :: 0 <= i < 32 && Bit(ptn, i) && Bit(x.waiptn, i))
    ensures !x.orw ==> (Satisfied(ptn, x) <==> forall i :: 0 <= i < 32 && Bit(x.waiptn, i) ==> Bit(ptn, i))
  {
    hide Bit, And;
    AnyBit(ptn, x.waiptn);
    AllBits(ptn, x.waiptn);
  }

  lemma PatternBits(ptn: bv32, y: bv32, i: nat)
    requires i < 32
    ensures Bit(Plus(ptn, y), i) <==> Bit(ptn, i) || Bit(y, i)
    ensures Bit(Only(ptn, y), i) <==> Bit(ptn, i) && Bit(y, i)
  {
    hide Bit, And, Or;
    BitOf(ptn, y, i);
  }

  lemma PatternsBits(ptn: bv32, y: bv32)
    ensures forall i :: 0 <= i < 32 ==> (Bit(Plus(ptn, y), i) <==> Bit(ptn, i) || Bit(y, i))
    ensures forall i :: 0 <= i < 32 ==> (Bit(Only(ptn, y), i) <==> Bit(ptn, i) && Bit(y, i))
  {
    hide Bit, Plus, Only;
    forall i | 0 <= i < 32
      ensures Bit(Plus(ptn, y), i) <==> Bit(ptn, i) || Bit(y, i)
      ensures Bit(Only(ptn, y), i) <==> Bit(ptn, i) && Bit(y, i)
    {
      PatternBits(ptn, y, i);
    }
  }

  /** The condition of a waiting task holds of the bits of a pattern. */
  ghost predicate BitsMet(ptn: bv32, x: Cond) {
    if x.orw then exists i :: 0 <= i < 32 && Bit(ptn, i) && Bit(x.waiptn, i)
    else forall i :: 0 <= i < 32 && Bit(x.waiptn, i) ==> Bit(ptn, i)
  }

  lemma BitsDecide(ptn: bv32)
    ensures forall x :: Satisfied(ptn, x) <==> BitsMet(ptn, x)
  {
    hide Satisfied, Bit;
    forall x ensures Satisfied(ptn, x) <==> BitsMet(ptn, x) {
      ConditionBits(ptn, x);
    }
  }

  /** Clearing bits satisfies nobody. */
  lemma FewerBits(ptn: bv32, clr: bv32, x: Cond)
    requires Satisfied(Only(ptn, clr), x)
    ensures Satisfied(ptn, x)
  {
    hide And;
    AndBits(ptn, clr, x.waiptn);
  }

  lemma AndBits(p: bv32, c: bv32, w: bv32)
    ensures And(And(p, c), w) != 0 ==> And(p, w) != 0
    ensures And(And(p, c), w) == w ==> And(p, w) == w
  {
  }

  /** Bits are waited for, so no bits satisfy nobody. */
  lemma NoBits(x: Cond)
    requires x.waiptn != 0
    ensures !Satisfied(0, x)
  {
    hide And;
    ZeroBits(x.waiptn);
  }

  lemma ZeroBits(w: bv32)
    ensures And(0, w) == 0
  {
  }

  /** No waiting task's condition holds, and each waits for some bit. */
  ghost predicate NoneSatisfied(ptn: bv32, q: seq<Waiter>) {
    forall i :: 0 <= i < |q| ==> q[i].data.waiptn != 0 && !Satisfied(ptn, q[i].data)
  }

  ghost predicate Asking(q: seq<Waiter>) {
    forall i :: 0 <= i < |q| ==> q[i].data.waiptn != 0
  }

  /** The waiting tasks that pattern ptn satisfies, or those it does not, in order. */
  function Those(ptn: bv32, q: seq<Waiter>, satisfied: bool): seq<Waiter> {
    if q == [] then []
    else (if Satisfied(ptn, q[0].data) == satisfied then [q[0]] else []) + Those(ptn, q[1..], satisfied)
  }

  function Wakes(q: seq<Waiter>, ptn: bv32): seq<Woken> {
    if q == [] then [] else [Woken(q[0].task, ptn)] + Wakes(q[1..], ptn)
  }

  lemma {:induction false} ThoseSplit(ptn: bv32, a: seq<Waiter>, b: seq<Waiter>, satisfied: bool)
    ensures Those(ptn, a + b, satisfied) == Those(ptn, a, satisfied) + Those(ptn, b, satisfied)
    decreases |a|
  {
    if a == [] {
      assert a + b == b;
    } else {
      assert (a + b)[0] == a[0] && (a + b)[1..] == a[1..] + b;
      ThoseSplit(ptn, a[1..], b, satisfied);
      var x := if Satisfied(ptn, a[0].data) == satisfied then [a[0]] else [];
      assert x + (Those(ptn, a[1..], satisfied) + Those(ptn, b, satisfied))
        == (x + Those(ptn, a[1..], satisfied)) + Those(ptn, b, satisfied);
    }
  }

  lemma {:induction false} WakesSplit(a: seq<Waiter>, b: seq<Waiter>, ptn: bv32)
    ensures Wakes(a + b, ptn) == Wakes(a, ptn) + Wakes(b, ptn)
    decreases |a|
  {
    if a == [] {
      assert a + b == b;
    } else {
      assert (a + b)[0] == a[0] && (a + b)[1..] == a[1..] + b;
      WakesSplit(a[1..], b, ptn);
    }
  }

  /** A task is among those that are satisfied, or not, exactly if it waits and is. */
  lemma {:induction false} ThoseAre(ptn: bv32, q: seq<Waiter>, satisfied: bool, x: Waiter)
    ensures x in Those(ptn, q, satisfied) <==> x in q && Satisfied(ptn, x.data) == satisfied
    decreases |q|
  {
    if q != [] {
      assert q == [q[0]] + q[1..];
      ThoseAre(ptn, q[1..], satisfied, x);
    }
  }

  /** A task is woken exactly if it is one of those, with the pattern. */
  lemma {:induction false} WakesAre(q: seq<Waiter>, ptn: bv32, y: Woken)
    ensures y in Wakes(q, ptn) <==> y.ptn == ptn && exists x :: x in q && y.task == x.task
    decreases |q|
  {
    if q != [] {
      assert q == [q[0]] + q[1..];
      WakesAre(q[1..], ptn, y);
      if y.ptn == ptn && (exists x :: x in q && y.task == x.task) {
        var x :| x in q && y.task == x.task;
        assert x == q[0] || x in q[1..];
      }
    }
  }

  /** Who is woken by a pattern, and who goes on waiting. */
  lemma WhoIsWoken(ptn: bv32, q: seq<Waiter>)
    ensures forall x :: x in Those(ptn, q, false) <==> x in q && !BitsMet(ptn, x.data)
    ensures forall y :: y in Wakes(Those(ptn, q, true), ptn) <==>
      y.ptn == ptn && exists x :: x in q && y.task == x.task && BitsMet(ptn, x.data)
  {
    BitsDecide(ptn);
    hide Satisfied, BitsMet, Those, Wakes;
    forall x ensures x in Those(ptn, q, false) <==> x in q && !BitsMet(ptn, x.data) {
      ThoseAre(ptn, q, false, x);
    }
    forall x ensures x in Those(ptn, q, true) <==> x in q && BitsMet(ptn, x.data) {
      ThoseAre(ptn, q, true, x);
    }
    forall y ensures y in Wakes(Those(ptn, q, true), ptn) <==>
      y.ptn == ptn && exists x :: x in q && y.task == x.task && BitsMet(ptn, x.data)
    {
      WakesAre(Those(ptn, q, true), ptn, y);
    }
  }

  /** The woken tasks and those left are each in the order of the queue. */
  lemma {:induction false} ThoseInOrder(ptn: bv32, q: seq<Waiter>, satisfied: bool)
    ensures InOrderOf(Those(ptn, q, satisfied), q)
    decreases |q|
  {
    if q != [] {
      ThoseInOrder(ptn, q[1..], satisfied);
      var r := Those(ptn, q[1..], satisfied);
      if Satisfied(ptn, q[0].data) == satisfied {
        assert Those(ptn, q, satisfied) == [q[0]] + r && ([q[0]] + r)[1..] == r;
      } else {
        assert Those(ptn, q, satisfied) == r;
      }
    }
  }

  /** The entries of a are some of those of b, in the same order. */
  predicate InOrderOf(a: seq<Waiter>, b: seq<Waiter>)
    decreases |b|
  {
    a == [] || (b != [] && ((a[0] == b[0] && InOrderOf(a[1..], b[1..])) || InOrderOf(a, b[1..])))
  }

  lemma {:induction false} ThoseFewer(ptn: bv32, q: seq<Waiter>, satisfied: bool)
    ensures |Those(ptn, q, satisfied)| <= |q|
    decreases |q|
  {
    if q != [] {
      ThoseFewer(ptn, q[1..], satisfied);
    }
  }

  lemma {:induction false} NobodyHere(ptn: bv32, q: seq<Waiter>)
    requires forall i :: 0 <= i < |q| ==> !Satisfied(ptn, q[i].data)
    ensures Those(ptn, q, true) == [] && Those(ptn, q, false) == q
    decreases |q|
  {
    if q != [] {
      NobodyHere(ptn, q[1..]);
    }
  }

  /** The waiting task at index k is the first that pattern ptn satisfies. */
  ghost predicate FirstAt(ptn: bv32, q: seq<Waiter>, k: nat) {
    k < |q| && Satisfied(ptn, q[k].data) && forall i :: 0 <= i < k ==> !Satisfied(ptn, q[i].data)
  }

  /** The task at index k, the first whose condition the pattern it gets meets, has
    left the queue. */
  ghost predicate TakenAt(q: seq<Waiter>, q': seq<Waiter>, y: Woken, k: nat) {
    && k < |q| && y.task == q[k].task && q' == q[..k] + q[k + 1..]
    && BitsMet(y.ptn, q[k].data) && forall j :: 0 <= j < k ==> !BitsMet(y.ptn, q[j].data)
  }

  lemma LeftUnsatisfied(ptn: bv32, q: seq<Waiter>)
    requires Asking(q)
    ensures NoneSatisfied(ptn, Those(ptn, q, false))
  {
    var r := Those(ptn, q, false);
    forall i | 0 <= i < |r| ensures r[i].data.waiptn != 0 && !Satisfied(ptn, r[i].data) {
      ThoseAre(ptn, q, false, r[i]);
      var j :| 0 <= j < |q| && q[j] == r[i];
    }
  }

  lemma {:induction false} WithoutKeeps(ptn: bv32, q: seq<Waiter>, task: nat)
    requires NoneSatisfied(ptn, q)
    ensures NoneSatisfied(ptn, Without(q, task))
    decreases |q|
  {
    if q != [] && q[0].task != task {
      assert NoneSatisfied(ptn, q[1..]);
      WithoutKeeps(ptn, q[1..], task);
    }
  }

  /** The tasks left in the queue stay in order. */
  lemma {:induction false} ThoseOrdered(ptn: bv32, q: seq<Waiter>, satisfied: bool, tpri: bool)
    requires Ordered(tpri, q)
    ensures Ordered(tpri, Those(ptn, q, satisfied))
    decreases |q|
  {
    if q != [] {
      ThoseOrdered(ptn, q[1..], satisfied, tpri);
      var r := Those(ptn, q[1..], satisfied);
      forall i | 0 <= i < |r| && tpri ensures q[0].pri <= r[i].pri {
        ThoseAre(ptn, q[1..], satisfied, r[i]);
        var j :| 0 <= j < |q[1..]| && q[1..][j] == r[i];
        assert q[j + 1] == r[i];
      }
    }
  }

  lemma CutOrdered(q: seq<Waiter>, k: nat, tpri: bool)
    requires Ordered(tpri, q) && k < |q|
    ensures Ordered(tpri, q[..k] + q[k + 1..])
  {
    var r := q[..k] + q[k + 1..];
    assert forall i :: 0 <= i < |r| ==> r[i] == q[if i < k then i else i + 1];
  }

  /** A change of priority changes no condition. */
  lemma RepriKeeps(ptn: bv32, q: seq<Waiter>, tpri: bool, task: nat, pri: nat)
    requires NoneSatisfied(ptn, q)
    ensures NoneSatisfied(ptn, Repri(tpri, q, task, pri))
  {
    hide Satisfied, Repri;
    RepriData(tpri, q, task, pri);
    var r := Repri(tpri, q, task, pri);
    DatasLength(q);
    forall i | 0 <= i < |r| ensures r[i].data.waiptn != 0 && !Satisfied(ptn, r[i].data) {
      DatasAt(r, i);
      assert r[i].data in multiset(Datas(q));
      var j :| 0 <= j < |Datas(q)| && Datas(q)[j] == r[i].data;
      DatasAt(q, j);
    }
  }

  class EventFlag {
    const wmul: bool       // TA_WMUL: several tasks may wait
    const tpri: bool       // TA_TPRI
    const clr: bool        // TA_CLR: a satisfied wait clears the pattern
    const iflgptn: bv32
    var flgptn: bv32
    var wait: seq<Waiter>  // wait_queue

    /** No task is left waiting whose condition holds; the others are in the order of
      their priorities if the queue has it. */
    ghost predicate Good()
      reads this
    {
      NoneSatisfied(flgptn, wait) && (!wmul ==> |wait| <= 1) && Ordered(tpri, wait)
    }

    constructor (wmul: bool, tpri: bool, clr: bool, iflgptn: bv32)
      ensures Good() && flgptn == iflgptn && wait == []
      ensures this.wmul == wmul && this.tpri == tpri && this.clr == clr && this.iflgptn == iflgptn
    {
      this.wmul, this.tpri, this.clr, this.iflgptn := wmul, tpri, clr, iflgptn;
      flgptn, wait := iflgptn, [];
    }

    /** check_flg_cond. */
    method CheckFlgCond(x: Cond) returns (holds: bool, ptn: bv32)
      modifies `flgptn
      ensures holds == Satisfied(old(flgptn), x)
      ensures holds == BitsMet(old(flgptn), x)
      ensures holds ==> ptn == old(flgptn)
      ensures flgptn == if holds && clr then 0 else old(flgptn)
    {
      hide Satisfied, Bit;
      ConditionBits(flgptn, x);
      ptn := 0;
      holds := Satisfied(flgptn, x);
      if holds {
        ptn := flgptn;
        if clr {
          flgptn := 0;
        }
      }
    }

    /** The loop of set_flg.  Without TA_CLR exactly the satisfied tasks are released, in the
      order of the queue; with it only the first one, and the pattern is cleared.
      Each gets the pattern as it was before that. */
    method Release(setptn: bv32) returns (woken: seq<Woken>)
      requires Good()
      modifies this
      ensures Good()
      ensures var p := Plus(old(flgptn), setptn); var q := old(wait);
        && (!clr ==> woken == Wakes(Those(p, q, true), p) && wait == Those(p, q, false) && flgptn == p)
        && (clr ==> forall k: nat :: FirstAt(p, q, k) ==>
          woken == [Woken(q[k].task, p)] && wait == q[..k] + q[k + 1..] && flgptn == 0)
        && (clr && (forall k: nat :: !FirstAt(p, q, k)) ==> woken == [] && wait == q && flgptn == p)
    {
      hide Satisfied, Plus, Those, Wakes, Ordered, Bit;
      flgptn := Plus(flgptn, setptn);
      ghost var p := flgptn;
      var q := wait;
      var i := 0;
      wait, woken := [], [];
      assert q[..0] == [];
      NoneYet(p);
      while i < |q|
        invariant 0 <= i <= |q| && flgptn == p && Asking(q) && q == old(wait)
        invariant wait == Those(p, q[..i], false) && woken == Wakes(Those(p, q[..i], true), p)
        invariant clr ==> woken == [] && wait == q[..i] && forall j :: 0 <= j < i ==> !Satisfied(p, q[j].data)
      {
        var holds, ptn := CheckFlgCond(q[i].data);
        OneMore(p, q, i);
        if holds {
          woken := woken + [Woken(q[i].task, ptn)];
          if clr {
            wait := wait + q[i + 1..];
            ClearedGood(q, i);
            CutOrdered(q, i, tpri);
            assert FirstAt(p, q, i) && forall k: nat :: FirstAt(p, q, k) ==> k == i;
            return;
          }
        } else {
          wait := wait + [q[i]];
        }
        i := i + 1;
      }
      assert q[..i] == q;
      LeftUnsatisfied(p, q);
      ThoseFewer(p, q, false);
      ThoseOrdered(p, q, false, tpri);
      if clr {
        NobodyHere(p, q);
      }
    }

    /** set_flg, bit by bit: a bit is set then exactly if it was or is being
      set, and who is woken is decided by these bits. */
    method SetFlg(setptn: bv32) returns (woken: seq<Woken>)
      requires Good()
      modifies this
      ensures Good()
      ensures !clr || woken == [] ==>
        forall i :: 0 <= i < 32 ==> (Bit(flgptn, i) <==> Bit(old(flgptn), i) || Bit(setptn, i))
      ensures clr && woken != [] ==> flgptn == 0
      ensures forall y, i :: y in woken && 0 <= i < 32 ==> (Bit(y.ptn, i) <==> Bit(old(flgptn), i) || Bit(setptn, i))
      ensures !clr ==> forall x :: x in wait <==> x in old(wait) && !BitsMet(flgptn, x.data)
      ensures !clr ==> forall y :: y in woken <==>
        y.ptn == flgptn && exists x :: x in old(wait) && y.task == x.task && BitsMet(flgptn, x.data)
      ensures clr && woken == [] ==> wait == old(wait) && forall x :: x in wait ==> !BitsMet(flgptn, x.data)
      ensures clr && woken != [] ==> |woken| == 1 && exists k :: TakenAt(old(wait), wait, woken[0], k)
    {
      ghost var p, q := Plus(flgptn, setptn), wait;
      PatternsBits(flgptn, setptn);
      WhoIsWoken(p, q);
      BitsDecide(p);
      hide Satisfied, Plus, Only, Those, Wakes, Bit, BitsMet;
      woken := Release(setptn);
      if clr {
        FirstOrNone(p, q);
        if woken != [] {
          ghost var k: nat :| FirstAt(p, q, k);
          assert TakenAt(q, wait, woken[0], k);
        }
      }
    }

    static lemma FirstOrNone(p: bv32, q: seq<Waiter>)
      ensures (exists k: nat :: FirstAt(p, q, k)) || forall x :: x in q ==> !Satisfied(p, x.data)
    {
      hide Satisfied;
      var k := 0;
      while k < |q|
        invariant 0 <= k <= |q| && forall i :: 0 <= i < k ==> !Satisfied(p, q[i].data)
      {
        if Satisfied(p, q[k].data) {
          assert FirstAt(p, q, k);
          return;
        }
        k := k + 1;
      }
    }

    static lemma NoneYet(p: bv32)
      ensures Those(p, [], true) == [] && Those(p, [], false) == [] && Wakes([], p) == []
    {
    }

    /** One more task of the queue is looked at. */
    static lemma OneMore(p: bv32, q: seq<Waiter>, i: nat)
      requires i < |q|
      ensures q[..i + 1] == q[..i] + [q[i]]
      ensures var a, b := q[..i], q[..i + 1]; var holds := Satisfied(p, q[i].data);
        && Those(p, b, false) == Those(p, a, false) + (if holds then [] else [q[i]])
        && Wakes(Those(p, b, true), p) == Wakes(Those(p, a, true), p) + (if holds then [Woken(q[i].task, p)] else [])
    {
      hide Satisfied;
      assert q[..i + 1] == q[..i] + [q[i]];
      Single(p, q[i]);
      ThoseSplit(p, q[..i], [q[i]], true);
      ThoseSplit(p, q[..i], [q[i]], false);
      WakesSplit(Those(p, q[..i], true), [q[i]], p);
      hide Those, Wakes;
      assert Those(p, q[..i], true) + [] == Those(p, q[..i], true);
    }

    static lemma Single(p: bv32, x: Waiter)
      ensures Those(p, [x], true) == (if Satisfied(p, x.data) then [x] else [])
      ensures Those(p, [x], false) == (if Satisfied(p, x.data) then [] else [x])
      ensures Wakes([x], p) == [Woken(x.task, p)]
    {
    }

    static lemma Cleared(q: seq<Waiter>)
      requires Asking(q)
      ensures NoneSatisfied(0, q)
    {
      forall i | 0 <= i < |q| ensures !Satisfied(0, q[i].data) {
        NoBits(q[i].data);
      }
    }

    /** The tasks that remain after a cleared pattern. */
    static lemma ClearedGood(q: seq<Waiter>, k: nat)
      requires Asking(q) && k < |q|
      ensures NoneSatisfied(0, q[..k] + q[k + 1..])
    {
      var r := q[..k] + q[k + 1..];
      forall i | 0 <= i < |r| ensures r[i].data.waiptn != 0 && !Satisfied(0, r[i].data) {
        assert r[i] == q[if i < k then i else i + 1];
        NoBits(r[i].data);
      }
    }

    /** clr_flg. */
    method ClrFlg(clrptn: bv32)
      requires Good()
      modifies `flgptn
      ensures Good() && flgptn == Only(old(flgptn), clrptn)
      ensures forall i :: 0 <= i < 32 ==> (Bit(flgptn, i) <==> Bit(old(flgptn), i) && Bit(clrptn, i))
    {
      PatternsBits(flgptn, clrptn);
      hide Satisfied, Only, Bit;
      forall i | 0 <= i < |wait| ensures !Satisfied(Only(flgptn, clrptn), wait[i].data) {
        if Satisfied(Only(flgptn, clrptn), wait[i].data) {
          FewerBits(flgptn, clrptn, wait[i].data);
        }
      }
      flgptn := Only(flgptn, clrptn);
    }

    /** wai_flg and twai_flg, or pol_flg if not `mayWait`. */
    method WaiFlg(task: nat, pri: nat, x: Cond, mayWait: bool) returns (result: Result, ptn: bv32)
      requires Good()
      modifies this
      ensures Good()
      ensures result == if x.waiptn == 0 then Par else if !wmul && old(wait) != [] then IlUse
        else if Satisfied(old(flgptn), x) then Ok else if mayWait then Blocked else TmOut
      ensures result == Ok <==> x.waiptn != 0 && (wmul || old(wait) == []) && BitsMet(old(flgptn), x)
      ensures result == Ok ==> ptn == old(flgptn) && flgptn == if clr then 0 else old(flgptn)
      ensures result != Ok ==> flgptn == old(flgptn)
      ensures wait == if result == Blocked then Insert(tpri, old(wait), Sender(task, pri, x)) else old(wait)
    {
      hide Satisfied, NoneSatisfied, Insert, Ordered, BitsMet;
      AllAsk(wait);
      ptn := 0;
      if x.waiptn == 0 {
        return Par, ptn;
      } else if !wmul && wait != [] {
        return IlUse, ptn;
      }
      var holds, p := CheckFlgCond(x);
      if holds {
        Cleared(wait);
        return Ok, p;
      } else if !mayWait {
        return TmOut, ptn;
      } else {
        InsertOrdered(tpri, wait, Sender(task, pri, x));
        Enqueue(Sender(task, pri, x));
        return Blocked, ptn;
      }
    }

    lemma AllAsk(q: seq<Waiter>)
      requires NoneSatisfied(flgptn, q)
      ensures Asking(q)
    {
    }

    /** wobj_queue_insert. */
    method Enqueue(x: Waiter)
      requires NoneSatisfied(flgptn, wait) && x.data.waiptn != 0 && !Satisfied(flgptn, x.data)
      modifies `wait
      ensures wait == Insert(tpri, old(wait), x) && NoneSatisfied(flgptn, wait) && |wait| == |old(wait)| + 1
    {
      hide Satisfied;
      var q, k := wait, 0;
      while k < |q|
        invariant 0 <= k <= |q| && forall i :: 0 <= i < k ==> !Before(tpri, x, q[i])
      {
        if tpri && x.pri < q[k].pri {
          break;
        }
        k := k + 1;
      }
      InsertAt(tpri, q, x, k);
      wait := q[..k] + [x] + q[k..];
    }

    /** The wait of a task ends early: wait_dequeue_wobj. */
    method Leave(task: nat)
      requires Good()
      modifies `wait
      ensures Good() && wait == Without(old(wait), task)
    {
      WithoutOrdered(tpri, wait, task);
      WithoutKeeps(flgptn, wait, task);
      WithoutShorter(wait, task);
      wait := Without(wait, task);
    }

    static lemma {:induction false} WithoutShorter(q: seq<Waiter>, task: nat)
      ensures |Without(q, task)| <= |q|
      decreases |q|
    {
      if q != [] && q[0].task != task {
        WithoutShorter(q[1..], task);
      }
    }

    /** wobj_change_priority. */
    method Reprioritize(task: nat, pri: nat)
      requires Good()
      modifies `wait
      ensures Good() && wait == Repri(tpri, old(wait), task, pri)
    {
      RepriOrdered(tpri, wait, task, pri);
      RepriKeeps(flgptn, wait, tpri, task, pri);
      FoundAsks(flgptn, wait, task);
      WithoutKeeps(flgptn, wait, task);
      hide Insert, Without, Renew, Find, Ordered, NoneSatisfied, Satisfied;
      if tpri {
        var x := Find(wait, task);
        if x.Some? {
          wait := Without(wait, task);
          Enqueue(x.value.(pri := pri));
        }
      } else {
        wait := Renew(wait, task, pri);
      }
    }

    static lemma FoundAsks(ptn: bv32, q: seq<Waiter>, task: nat)
      requires NoneSatisfied(ptn, q)
      ensures var x := Find(q, task); x.Some? ==> x.value.data.waiptn != 0 && !Satisfied(ptn, x.value.data)
    {
      hide Satisfied;
      var k := WithoutPlace(q, task);
    }

    /** ini_flg. */
    method Init()
      requires Good()
      modifies this
      ensures Good() && flgptn == iflgptn && wait == []
    {
      flgptn, wait := iflgptn, [];
    }
  }
}
