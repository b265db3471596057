/**
 * The event emitter's handler table and its dispatch loop (unio/inc/jcu-unio/emitter.h). A listener
 * is represented by what it registers when called, a finite tree; ordinary event types only (the
 * InitEvent specialisations are in InitProtocol).
 */
module Emitters {
  import opened Prelude

  type EventType = nat

  datatype Listener = Listener(id: nat, once: bool, script: seq<Registration>)

  datatype Registration = Registration(event: EventType, listener: Listener)

  type Table = map<EventType, seq<Listener>>

  function ListenerSize(l: Listener): nat
    decreases l, 1
  {
    1 + ScriptSize(l.script)
  }

  function ScriptSize(rs: seq<Registration>): nat
    decreases rs, 0
  {
    if rs == [] then 0 else RegistrationSize(rs[0]) + ScriptSize(rs[1..])
  }

  function RegistrationSize(r: Registration): nat
    decreases r, 0
  {
    ListenerSize(r.listener)
  }

  function ListSize(q: seq<Listener>): nat {
    if q == [] then 0 else ListenerSize(q[0]) + ListSize(q[1..])
  }

  /** The listeners a script registers for `t`, in order. */
  function Registers(rs: seq<Registration>, t: EventType): seq<Listener> {
    if rs == [] then []
    else (if rs[0].event == t then [rs[0].listener] else []) + Registers(rs[1..], t)
  }

  /** The listeners that calling all of `called` registers for `t`, in order. */
  function AllRegisters(called: seq<Listener>, t: EventType): seq<Listener> {
    if called == [] then [] else Registers(called[0].script, t) + AllRegisters(called[1..], t)
  }

  /** The listeners that stay in a list once each of them has been called. */
  function Lasting(called: seq<Listener>): seq<Listener> {
    if called == [] then []
    else (if called[0].once then [] else [called[0]]) + Lasting(called[1..])
  }

  lemma {:induction false} ListSizeAppend(p: seq<Listener>, q: seq<Listener>)
    ensures ListSize(p + q) == ListSize(p) + ListSize(q)
  {
    if p == [] {
      assert p + q == q;
    } else {
      ListSizeAppend(p[1..], q);
      assert (p + q)[1..] == p[1..] + q;
    }
  }

  lemma {:induction false} RegistersSize(rs: seq<Registration>, t: EventType)
    ensures ListSize(Registers(rs, t)) <= ScriptSize(rs)
  {
    if rs != [] {
      RegistersSize(rs[1..], t);
      var first := if rs[0].event == t then [rs[0].listener] else [];
      ListSizeAppend(first, Registers(rs[1..], t));
    }
  }

  lemma {:induction false} RegistersAppend(a: seq<Registration>, b: seq<Registration>, t: EventType)
    ensures Registers(a + b, t) == Registers(a, t) + Registers(b, t)
  {
    if a == [] {
      assert a + b == b;
    } else {
      var first := if a[0].event == t then [a[0].listener] else [];
      calc {
        Registers(a + b, t);
        { assert (a + b)[0] == a[0] && (a + b)[1..] == a[1..] + b; }
        first + Registers(a[1..] + b, t);
        { RegistersAppend(a[1..], b, t); }
        first + (Registers(a[1..], t) + Registers(b, t));
        (first + Registers(a[1..], t)) + Registers(b, t);
        Registers(a, t) + Registers(b, t);
      }
    }
  }

  lemma {:induction false} AllRegistersSnoc(called: seq<Listener>, l: Listener, t: EventType)
    ensures AllRegisters(called + [l], t) == AllRegisters(called, t) + Registers(l.script, t)
  {
    hide Registers;
    if called == [] {
      assert (called + [l])[1..] == [] && (called + [l])[0] == l;
      assert AllRegisters([], t) == [];
    } else {
      AllRegistersSnoc(called[1..], l, t);
      assert (called + [l])[0] == called[0] && (called + [l])[1..] == called[1..] + [l];
      Associative(Registers(called[0].script, t), AllRegisters(called[1..], t), Registers(l.script, t));
    }
  }

  lemma {:induction false} LastingSnoc(called: seq<Listener>, l: Listener)
    ensures Lasting(called + [l]) == Lasting(called) + (if l.once then [] else [l])
  {
    if called == [] {
      assert (called + [l])[1..] == [] && (called + [l])[0] == l;
      assert Lasting([]) == [];
    } else {
      LastingSnoc(called[1..], l);
      assert (called + [l])[0] == called[0] && (called + [l])[1..] == called[1..] + [l];
      Associative(if called[0].once then [] else [called[0]], Lasting(called[1..]), if l.once then [] else [l]);
    }
  }

  /** Who is called when `t` is emitted with the list `q`, late registrations for `t` included. */
  function Walk(q: seq<Listener>, t: EventType): seq<Listener>
    decreases ListSize(q)
  {
    if q == [] then []
    else
      RegistersSize(q[0].script, t);
      ListSizeAppend(q[1..], Registers(q[0].script, t));
      [q[0]] + Walk(q[1..] + Registers(q[0].script, t), t)
  }

  lemma WalkStep(done: seq<Listener>, q: seq<Listener>, t: EventType)
    requires q != []
    ensures ListSize(q[1..] + Registers(q[0].script, t)) < ListSize(q)
    ensures done + Walk(q, t) == (done + [q[0]]) + Walk(q[1..] + Registers(q[0].script, t), t)
  {
    RegistersSize(q[0].script, t);
    ListSizeAppend(q[1..], Registers(q[0].script, t));
    Associative(done, [q[0]], Walk(q[1..] + Registers(q[0].script, t), t));
  }

  /**
   * The listeners registered before the emission are called first, once each, in registration order;
   * after them exactly those that the listeners called registered for `t` meanwhile, in order.
   */
  lemma {:induction false} WalkIsClosed(q: seq<Listener>, t: EventType)
    ensures Walk(q, t) == q + AllRegisters(Walk(q, t), t)
    decreases ListSize(q)
  {
    if q != [] {
      var regs := Registers(q[0].script, t);
      var rest := q[1..] + regs;
      WalkStep([], q, t);
      WalkIsClosed(rest, t);
      var w := Walk(rest, t);
      assert Walk(q, t) == [q[0]] + w;
      assert Walk(q, t)[1..] == w && Walk(q, t)[0] == q[0];
      assert AllRegisters(Walk(q, t), t) == regs + AllRegisters(w, t);
      FrontShift(q, regs, AllRegisters(w, t));
    }
  }

  lemma RegistersOne(r: Registration, t: EventType)
    ensures Registers([r], t) == if r.event == t then [r.listener] else []
  {
    assert [r][1..] == [];
    assert Registers([], t) == [];
  }

  lemma FrontShift<T>(q: seq<T>, a: seq<T>, b: seq<T>)
    requires q != []
    ensures [q[0]] + ((q[1..] + a) + b) == q + (a + b)
  {
  }

  function CallLog(t: EventType, called: seq<Listener>): seq<(EventType, nat)> {
    seq(|called|, i requires 0 <= i < |called| => (t, called[i].id))
  }

  /** The lists of the other types have only gained what the callbacks registered there. */
  ghost predicate OthersGained(first: Table, now: Table, done: seq<Listener>, t: EventType) {
    forall u :: u != t ==> Lookup(now, u) == Lookup(first, u) + AllRegisters(done, u)
  }

  /** The list and the iterator after one turn of the dispatch loop. */
  function AfterTurn(list: seq<Listener>, it: nat, t: EventType): (r: (seq<Listener>, nat))
    requires it < |list|
    ensures it <= r.1 <= |r.0|
  {
    var grown := list + Registers(list[it].script, t);
    if list[it].once then (grown[..it] + grown[it + 1..], it) else (grown, it + 1)
  }

  /** One invocation leaves every other type with what it had and the new registrations. */
  lemma OthersStep(first: Table, before: Table, after: Table, done: seq<Listener>, l: Listener, t: EventType)
    requires OthersGained(first, before, done, t)
    requires forall u :: u != t ==> Lookup(after, u) == Lookup(before, u) + Registers(l.script, u)
    ensures OthersGained(first, after, done + [l], t)
  {
    forall u | u != t ensures Lookup(after, u) == Lookup(first, u) + AllRegisters(done + [l], u) {
      AllRegistersSnoc(done, l, u);
      Associative(Lookup(first, u), AllRegisters(done, u), Registers(l.script, u));
    }
  }

  /** One turn of the dispatch loop on the list itself, callbacks having appended at its end. */
  lemma DispatchStep(done: seq<Listener>, list: seq<Listener>, it: nat, t: EventType)
    requires it < |list| && list[..it] == Lasting(done)
    ensures var l := list[it];
            var (after, next) := AfterTurn(list, it, t);
            && after[..next] == Lasting(done + [l])
            && done + Walk(list[it..], t) == (done + [l]) + Walk(after[next..], t)
            && ListSize(after[next..]) < ListSize(list[it..])
  {
    hide Walk, ListSize, Registers;
    var l := list[it];
    var regs := Registers(l.script, t);
    WalkStep(done, list[it..], t);
    LastingSnoc(done, l);
    TurnShape(list, it, regs);
  }

  lemma TurnShape(list: seq<Listener>, it: nat, regs: seq<Listener>)
    requires it < |list|
    ensures list[it..][1..] == list[it + 1..] && list[it..][0] == list[it]
    ensures var grown := list + regs;
            var erased := grown[..it] + grown[it + 1..];
            && erased[..it] == list[..it] && erased[it..] == list[it + 1..] + regs
            && grown[..it + 1] == list[..it] + [list[it]] && grown[it + 1..] == list[it + 1..] + regs
  {
  }

  class Emitter {
    var handlers: map<EventType, seq<Listener>>
    /** Every callback invocation, oldest first. */
    var calls: seq<(EventType, nat)>

    constructor ()
      ensures handlers == map[] && calls == []
    {
      handlers, calls := map[], [];
    }

    /** `getHandler` creates the entry; `on` and `once` append to it. */
    method Register(t: EventType, l: Listener)
      modifies this`handlers
      ensures handlers == old(handlers)[t := Lookup(old(handlers), t) + [l]]
    {
      if t !in handlers {
        handlers := handlers[t := []];
      }
      handlers := handlers[t := handlers[t] + [l]];
    }

    method On(t: EventType, id: nat, script: seq<Registration>)
      modifies this`handlers
      ensures handlers == old(handlers)[t := Lookup(old(handlers), t) + [Listener(id, false, script)]]
    {
      Register(t, Listener(id, false, script));
    }

    method Once(t: EventType, id: nat, script: seq<Registration>)
      modifies this`handlers
      ensures handlers == old(handlers)[t := Lookup(old(handlers), t) + [Listener(id, true, script)]]
    {
      Register(t, Listener(id, true, script));
    }

    /** Invoke one callback: it is noted, and its registrations take effect at once. */
    method Invoke(t: EventType, l: Listener)
      modifies this
      ensures calls == old(calls) + [(t, l.id)]
      ensures forall u :: Lookup(handlers, u) == Lookup(old(handlers), u) + Registers(l.script, u)
      ensures old(handlers).Keys <= handlers.Keys
    {
      calls := calls + [(t, l.id)];
      var i := 0;
      while i < |l.script|
        invariant i <= |l.script|
        invariant calls == old(calls) + [(t, l.id)]
        invariant forall u :: Lookup(handlers, u) == Lookup(old(handlers), u) + Registers(l.script[..i], u)
        invariant old(handlers).Keys <= handlers.Keys
      {
        assert l.script[..i + 1] == l.script[..i] + [l.script[i]];
        ghost var before := handlers;
        Register(l.script[i].event, l.script[i].listener);
        forall u ensures Lookup(handlers, u) == Lookup(old(handlers), u) + Registers(l.script[..i + 1], u) {
          RegistersAppend(l.script[..i], [l.script[i]], u);
          RegistersOne(l.script[i], u);
          Associative(Lookup(old(handlers), u), Registers(l.script[..i], u), Registers([l.script[i]], u));
          assert Lookup(handlers, u) == Lookup(before, u) + Registers([l.script[i]], u);
        }
        i := i + 1;
      }
      assert l.script[..i] == l.script;
    }

    /** The body of `Handler::call`'s loop: invoke the listener at `it`, then erase it or step over it. */
    method CallAt(t: EventType, it: nat) returns (next: nat)
      requires t in handlers && it < |handlers[t]|
      modifies this
      ensures var list := old(handlers)[t];
              && t in handlers
              && (handlers[t], next) == AfterTurn(list, it, t)
              && calls == old(calls) + [(t, list[it].id)]
              && forall u :: u != t ==>
                   Lookup(handlers, u) == Lookup(old(handlers), u) + Registers(list[it].script, u)
    {
      var l := handlers[t][it];
      Invoke(t, l);
      assert Lookup(handlers, t) == handlers[t] && Lookup(old(handlers), t) == old(handlers)[t];
      next := it;
      if l.once {
        handlers := handlers[t := handlers[t][..it] + handlers[t][it + 1..]];
      } else {
        next := it + 1;
      }
    }

    /**
     * `Handler::call`: walk the list, which callbacks may extend, erasing the once-listeners. Every
     * listener walked is called once; exactly the lasting ones remain, in order; the other types
     * only gain what the callbacks registered.
     */
    method Emit(t: EventType) returns (count: nat)
      modifies this
      ensures var walk := Walk(Lookup(old(handlers), t), t);
              && count == |walk|
              && calls == old(calls) + CallLog(t, walk)
              && Lookup(handlers, t) == Lasting(walk)
              && OthersGained(old(handlers), handlers, walk, t)
    {
      count := 0;
      if t !in handlers {
        return;
      }
      ghost var done: seq<Listener> := [];
      var it: nat := 0;
      while it < |handlers[t]|
        invariant t in handlers && it <= |handlers[t]|
        invariant count == |done| && handlers[t][..it] == Lasting(done)
        invariant Walk(Lookup(old(handlers), t), t) == done + Walk(handlers[t][it..], t)
        invariant calls == old(calls) + CallLog(t, done)
        invariant OthersGained(old(handlers), handlers, done, t)
        decreases ListSize(handlers[t][it..])
      {
        ghost var table, from := handlers, it;
        ghost var l := handlers[t][it];
        DispatchStep(done, table[t], from, t);
        it := CallAt(t, it);
        OthersStep(old(handlers), table, handlers, done, l, t);
        done := done + [l];
        count := count + 1;
      }
      assert handlers[t][..it] == handlers[t] && done + [] == done;
    }

    method Off(t: EventType)
      modifies this`handlers
      ensures handlers == old(handlers) - {t}
    {
      if t in handlers {
        handlers := handlers - {t};
      }
    }

    method OffAll()
      modifies this`handlers
      ensures handlers == map[]
    {
      while handlers != map[]
        decreases |handlers|
      {
        var t :| t in handlers;
        handlers := handlers - {t};
      }
    }

    method GetEventCount(t: EventType) returns (n: nat)
      ensures n == |Lookup(handlers, t)|
    {
      n := if t in handlers then |handlers[t]| else 0;
    }
  }
}
