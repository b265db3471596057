/**
 * The emitter object and the dispatch machine are the same thing: what `Emitters.Emitter.Emit` promises
 * is what a run of the table machine does, and so, by the refinement, what the flat log does.
 */
module EmitterRuns {
  import opened Prelude
  import opened EmitterLog
  import E = Emitters

  function SlotOf(l: E.Listener): Slot {
    Slot(l.id, l.once)
  }

  function SlotsOf(ls: seq<E.Listener>): seq<Slot> {
    seq(|ls|, i requires 0 <= i < |ls| => SlotOf(ls[i]))
  }

  /** The steps of a callback that does what its script says. */
  function ScriptLabels(rs: seq<E.Registration>): seq<Label> {
    seq(|rs|, i requires 0 <= i < |rs| => Register(rs[i].event, SlotOf(rs[i].listener)))
  }

  function CallLabels(l: E.Listener): seq<Label> {
    [Call] + ScriptLabels(l.script) + [Return]
  }

  function WalkLabels(walk: seq<E.Listener>): seq<Label> {
    if walk == [] then [] else CallLabels(walk[0]) + WalkLabels(walk[1..])
  }

  lemma TRunCons(s: Tabled, l: Label, rest: seq<Label>)
    requires TEnabled(s, l) && TValid(TStep(s, l), rest)
    ensures TValid(s, [l] + rest) && TRun(s, [l] + rest) == TRun(TStep(s, l), rest)
  {
    assert ([l] + rest)[1..] == rest;
  }

  lemma {:induction false} TRunAppend(s: Tabled, a: seq<Label>, b: seq<Label>)
    requires TValid(s, a) && TValid(TRun(s, a), b)
    ensures TValid(s, a + b) && TRun(s, a + b) == TRun(TRun(s, a), b)
    decreases a
  {
    if a == [] {
      assert a + b == b;
    } else {
      TRunAppend(TStep(s, a[0]), a[1..], b);
      TRunCons(s, a[0], a[1..] + b);
      assert a + b == [a[0]] + (a[1..] + b);
    }
  }

  lemma SlotsOfAppend(a: seq<E.Listener>, b: seq<E.Listener>)
    ensures SlotsOf(a + b) == SlotsOf(a) + SlotsOf(b)
  {
  }

  /** A script's registrations reach every list they are meant for, in order. */
  lemma {:induction false} ScriptRuns(s: Tabled, rs: seq<E.Registration>)
    requires UserTurn(s.frames)
    ensures TValid(s, ScriptLabels(rs))
    ensures var v := TRun(s, ScriptLabels(rs));
            && v.(table := s.table) == s
            && forall u: nat :: Lookup(v.table, u) == Lookup(s.table, u) + SlotsOf(E.Registers(rs, u))
    decreases rs
  {
    if rs != [] {
      var l := Register(rs[0].event, SlotOf(rs[0].listener));
      var v := TStep(s, l);
      ScriptRuns(v, rs[1..]);
      TRunCons(s, l, ScriptLabels(rs[1..]));
      assert ScriptLabels(rs) == [l] + ScriptLabels(rs[1..]);
      var w := TRun(s, ScriptLabels(rs));
      forall u: nat ensures Lookup(w.table, u) == Lookup(s.table, u) + SlotsOf(E.Registers(rs, u)) {
        var first := if rs[0].event == u then [rs[0].listener] else [];
        assert Lookup(v.table, u) == Lookup(s.table, u) + SlotsOf(first);
        SlotsOfAppend(first, E.Registers(rs[1..], u));
        Associative(Lookup(s.table, u), SlotsOf(first), SlotsOf(E.Registers(rs[1..], u)));
      }
    }
  }

  /** The machine in the middle of one dispatch of `t`: `kept` is behind the iterator, `q` ahead of it. */
  predicate Midway(s: Tabled, t: nat, kept: seq<E.Listener>, q: seq<E.Listener>, count: nat) {
    s.frames == [Frame(t, |kept|, false, count)] && Lookup(s.table, t) == SlotsOf(kept) + SlotsOf(q)
  }

  /** `v` differs from `s` by the calls of `called` and by what they registered for other types. */
  ghost predicate After(s: Tabled, v: Tabled, t: nat, called: seq<E.Listener>) {
    && v.calls == s.calls + E.CallLog(t, called)
    && v.returned == s.returned
    && forall u: nat :: u != t ==> Lookup(v.table, u) == Lookup(s.table, u) + SlotsOf(E.AllRegisters(called, u))
  }

  function Lasts(l: E.Listener): seq<E.Listener> {
    if l.once then [] else [l]
  }

  lemma CallRuns(s: Tabled, t: nat, kept: seq<E.Listener>, q: seq<E.Listener>, count: nat)
    requires q != [] && Midway(s, t, kept, q, count)
    ensures TEnabled(s, Call) && UserTurn(TStep(s, Call).frames)
    ensures TStep(s, Call) == s.(frames := [Frame(t, |kept|, true, count)], calls := s.calls + [(t, q[0].id)])
  {
    assert s.frames[..0] == [] && s.table[t][|kept|] == SlotOf(q[0]);
  }

  lemma ReturnRuns(s: Tabled, t: nat, kept: seq<E.Listener>, q: seq<E.Listener>, regs: seq<E.Listener>, count: nat)
    requires q != [] && s.frames == [Frame(t, |kept|, true, count)]
    requires Lookup(s.table, t) == SlotsOf(kept) + SlotsOf(q) + SlotsOf(regs)
    ensures TEnabled(s, Return)
    ensures var v := TStep(s, Return);
            && Midway(v, t, kept + Lasts(q[0]), q[1..] + regs, count + 1)
            && v.calls == s.calls && v.returned == s.returned
            && forall u: nat :: u != t ==> Lookup(v.table, u) == Lookup(s.table, u)
  {
    hide SlotsOf;
    ListShape(kept, q, regs);
    assert s.frames[..0] == [];
    var list := s.table[t];
    assert |list| > |kept| && list[|kept|] == SlotOf(q[0]);
    if q[0].once {
      assert kept + Lasts(q[0]) == kept;
    }
  }

  /** Where the iterator stands in a list, and the list without the listener there. */
  lemma ListShape(kept: seq<E.Listener>, q: seq<E.Listener>, regs: seq<E.Listener>)
    requires q != []
    ensures var list := SlotsOf(kept) + SlotsOf(q) + SlotsOf(regs);
            && |list| > |kept| && list[|kept|] == SlotOf(q[0])
            && list[..|kept|] + list[|kept| + 1..] == SlotsOf(kept) + SlotsOf(q[1..] + regs)
            && list == SlotsOf(kept + [q[0]]) + SlotsOf(q[1..] + regs)
  {
  }

  /** One turn of the dispatch loop is the call, the callback's registrations, and the return. */
  lemma TurnRuns(s: Tabled, t: nat, kept: seq<E.Listener>, q: seq<E.Listener>, count: nat)
    requires q != [] && Midway(s, t, kept, q, count)
    ensures TValid(s, CallLabels(q[0]))
    ensures var v := TRun(s, CallLabels(q[0]));
            && Midway(v, t, kept + Lasts(q[0]), q[1..] + E.Registers(q[0].script, t), count + 1)
            && v.calls == s.calls + [(t, q[0].id)] && v.returned == s.returned
            && forall u: nat :: u != t ==>
                 Lookup(v.table, u) == Lookup(s.table, u) + SlotsOf(E.Registers(q[0].script, u))
  {
    hide TEnabled, TStep;
    var l := q[0];
    CallRuns(s, t, kept, q, count);
    var called := TStep(s, Call);
    ScriptRuns(called, l.script);
    var scripted := TRun(called, ScriptLabels(l.script));
    ReturnRuns(scripted, t, kept, q, E.Registers(l.script, t), count);
    TRunCons(scripted, Return, []);
    assert [Return] + [] == [Return];
    TRunAppend(called, ScriptLabels(l.script), [Return]);
    TRunCons(s, Call, ScriptLabels(l.script) + [Return]);
    assert CallLabels(l) == [Call] + (ScriptLabels(l.script) + [Return]);
  }

  lemma AfterTurn(s: Tabled, m: Tabled, v: Tabled, t: nat, l: E.Listener, rest: seq<E.Listener>)
    requires m.calls == s.calls + [(t, l.id)] && m.returned == s.returned
    requires forall u: nat :: u != t ==> Lookup(m.table, u) == Lookup(s.table, u) + SlotsOf(E.Registers(l.script, u))
    requires After(m, v, t, rest)
    ensures After(s, v, t, [l] + rest)
  {
    assert E.CallLog(t, [l] + rest) == [(t, l.id)] + E.CallLog(t, rest);
    Associative(s.calls, [(t, l.id)], E.CallLog(t, rest));
    forall u: nat | u != t ensures Lookup(v.table, u) == Lookup(s.table, u) + SlotsOf(E.AllRegisters([l] + rest, u)) {
      assert ([l] + rest)[1..] == rest;
      SlotsOfAppend(E.Registers(l.script, u), E.AllRegisters(rest, u));
      Associative(Lookup(s.table, u), SlotsOf(E.Registers(l.script, u)), SlotsOf(E.AllRegisters(rest, u)));
    }
  }

  lemma {:induction false} WalkRuns(s: Tabled, t: nat, kept: seq<E.Listener>, q: seq<E.Listener>, count: nat)
    requires Midway(s, t, kept, q, count)
    ensures var walk := E.Walk(q, t);
            && TValid(s, WalkLabels(walk))
            && (var v := TRun(s, WalkLabels(walk));
                && Midway(v, t, kept + E.Lasting(walk), [], count + |walk|)
                && After(s, v, t, walk))
    decreases E.ListSize(q)
  {
    hide TEnabled, TStep, CallLabels, E.Registers, E.ListSize;
    if q == [] {
      assert kept + [] == kept;
      assert E.CallLog(t, []) == [];
    } else {
      var l := q[0];
      var rest := q[1..] + E.Registers(l.script, t);
      E.WalkStep([], q, t);
      TurnRuns(s, t, kept, q, count);
      var m := TRun(s, CallLabels(l));
      WalkRuns(m, t, kept + Lasts(l), rest, count + 1);
      var walk := E.Walk(rest, t);
      TRunAppend(s, CallLabels(l), WalkLabels(walk));
      assert E.Walk(q, t) == [l] + walk;
      assert ([l] + walk)[1..] == walk;
      AfterTurn(s, m, TRun(m, WalkLabels(walk)), t, l, walk);
      Associative(kept, Lasts(l), E.Lasting(walk));
    }
  }

  function EmitLabels(t: nat, walk: seq<E.Listener>): seq<Label> {
    [Begin(t)] + WalkLabels(walk) + [End]
  }

  /**
   * `Emit` on the object and a top-level dispatch of the machine, from tables that agree: the calls made,
   * the count returned and the lists left behind are the ones `Emit` promises.
   */
  lemma EmitIsRun(s: Tabled, table: E.Table, t: nat)
    requires s.frames == [] && forall u: nat :: Lookup(s.table, u) == SlotsOf(Lookup(table, u))
    ensures var walk := E.Walk(Lookup(table, t), t);
            && TValid(s, EmitLabels(t, walk))
            && (var v := TRun(s, EmitLabels(t, walk));
                && v.frames == [] && v.calls == s.calls + E.CallLog(t, walk)
                && v.returned == s.returned + [(t, |walk|)]
                && Lookup(v.table, t) == SlotsOf(E.Lasting(walk))
                && forall u: nat :: u != t ==>
                     Lookup(v.table, u) == SlotsOf(Lookup(table, u) + E.AllRegisters(walk, u)))
  {
    hide E.Walk, E.Lasting, E.AllRegisters, WalkLabels;
    var q := Lookup(table, t);
    var walk := E.Walk(q, t);
    var begun := TStep(s, Begin(t));
    assert begun.frames == [Frame(t, 0, false, 0)];
    assert SlotsOf([]) + SlotsOf(q) == SlotsOf(q);
    WalkRuns(begun, t, [], q, 0);
    var walked := TRun(begun, WalkLabels(walk));
    EndRuns(walked, t, E.Lasting(walk), |walk|);
    TRunAppend(begun, WalkLabels(walk), [End]);
    TRunCons(s, Begin(t), WalkLabels(walk) + [End]);
    assert EmitLabels(t, walk) == [Begin(t)] + (WalkLabels(walk) + [End]);
    forall u: nat | u != t
      ensures Lookup(walked.table, u) == SlotsOf(Lookup(table, u) + E.AllRegisters(walk, u))
    {
      SlotsOfAppend(Lookup(table, u), E.AllRegisters(walk, u));
    }
  }

  lemma EndRuns(s: Tabled, t: nat, kept: seq<E.Listener>, count: nat)
    requires Midway(s, t, [] + kept, [], count)
    ensures TValid(s, [End])
    ensures TRun(s, [End]) == s.(frames := [], returned := s.returned + [(t, count)])
    ensures Lookup(s.table, t) == SlotsOf(kept)
  {
    assert [] + kept == kept && s.frames[..0] == [];
    TRunCons(s, End, []);
    assert [End] + [] == [End];
  }

  /** Removing a type, or all, does to the machine's table what it does to the object's. */
  lemma OffIsRun(s: Tabled, table: E.Table, t: nat)
    requires s.frames == [] && forall u: nat :: Lookup(s.table, u) == SlotsOf(Lookup(table, u))
    ensures TEnabled(s, Off(t)) && TEnabled(s, OffAll)
    ensures forall u: nat :: Lookup(TStep(s, Off(t)).table, u) == SlotsOf(Lookup(table - {t}, u))
    ensures forall u: nat :: Lookup(TStep(s, OffAll).table, u) == []
  {
    forall u: nat ensures Lookup(TStep(s, Off(t)).table, u) == SlotsOf(Lookup(table - {t}, u)) {
      if u != t {
        assert Lookup(TStep(s, Off(t)).table, u) == Lookup(s.table, u);
        assert Lookup(table - {t}, u) == Lookup(table, u);
      }
    }
  }
}
