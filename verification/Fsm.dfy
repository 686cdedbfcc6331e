/** The generic state machine: handler tables filled in place, a global handler before the one of the state. */
module Fsm {
  import opened Common

  function Registered<S, T, H>(table: map<S, map<T, H>>, s: S, tag: T, h: H): map<S, map<T, H>> {
    table[s := (if s in table then table[s] else map[])[tag := h]]
  }

  /** The handler registered for a tag in a state, if any. */
  function Lookup<S, T, H>(table: map<S, map<T, H>>, s: S, tag: T): Option<H> {
    if s in table && tag in table[s] then Some(table[s][tag]) else None
  }

  /** Registering replaces the handler of one state and tag and no other. */
  lemma RegisteredAt<S, T, H>(table: map<S, map<T, H>>, s: S, tag: T, h: H, s': S, tag': T)
    ensures Lookup(Registered(table, s, tag, h), s', tag') == if s' == s && tag' == tag then Some(h)
              else Lookup(table, s', tag')
  {
  }

  class StateMachine<S(==), T(==), H> {
    var state: S
    var handlers: map<S, map<T, H>>
    var globalHandlers: map<T, H>

    constructor (initial: S)
      ensures state == initial && handlers == map[] && globalHandlers == map[]
    {
      state := initial;
      handlers := map[];
      globalHandlers := map[];
    }

    method AddHandler(s: S, tag: T, h: H)
      modifies this
      ensures state == old(state) && globalHandlers == old(globalHandlers)
      ensures handlers == Registered(old(handlers), s, tag, h)
    {
      if s !in handlers {
        handlers := handlers[s := map[]];
      }
      handlers := handlers[s := handlers[s][tag := h]];
    }

    method AddGlobalHandler(tag: T, h: H)
      modifies this
      ensures state == old(state) && handlers == old(handlers)
      ensures globalHandlers == old(globalHandlers)[tag := h]
    {
      globalHandlers := globalHandlers[tag := h];
    }

    method SetState(s: S)
      modifies this
      ensures state == s && handlers == old(handlers) && globalHandlers == old(globalHandlers)
    {
      state := s;
    }

    /** What Apply runs for an event: first the global handler, then the one of the current state. */
    method Dispatch(tag: T) returns (first: Option<H>, second: Option<H>)
      ensures first == (if tag in globalHandlers then Some(globalHandlers[tag]) else None)
      ensures second == Lookup(handlers, state, tag)
    {
      first := if tag in globalHandlers then Some(globalHandlers[tag]) else None;
      second := None;
      if state in handlers {
        var transitions := handlers[state];
        if tag in transitions {
          second := Some(transitions[tag]);
        }
      }
    }
  }
}
