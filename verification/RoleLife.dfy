/** The life of roles: which of them act, when one may make the server convert while it is being started, or
    while a write or a timer of an earlier one is still outstanding. */
module RoleLife {
  import opened Entries

  datatype Act = Created(role: nat) | Destroyed(role: nat) | Sent(role: nat) | Took(role: nat)
               | Converted(role: nat) | Announced(role: nat)

  /** How many roles were created and which are live. It is lawful if every role was created while no other
      was live, and did nothing while it was not live. */
  datatype Summary = Summary(created: nat, live: set<nat>, lawful: bool)

  function Sum(acts: seq<Act>): Summary {
    if acts == [] then Summary(0, {}, true) else Step(Sum(acts[..|acts| - 1]), acts[|acts| - 1])
  }

  function Step(s: Summary, a: Act): Summary {
    if a.Created? then Summary(s.created + 1, s.live + {a.role}, s.lawful && s.live == {} && a.role == s.created)
    else if a.Destroyed? then s.(live := s.live - {a.role}, lawful := s.lawful && a.role in s.live)
    else s.(lawful := s.lawful && a.role in s.live)
  }

  lemma SumStep(acts: seq<Act>, a: Act)
    ensures Sum(acts + [a]) == Step(Sum(acts), a)
  {
    assert (acts + [a])[..|acts|] == acts;
  }

  lemma {:induction false} LawfulBefore(acts: seq<Act>, j: nat)
    requires Sum(acts).lawful && j <= |acts|
    ensures Sum(acts[..j]).lawful
  {
    if j < |acts| {
      LawfulBefore(acts[..|acts| - 1], j);
      assert acts[..|acts| - 1][..j] == acts[..j];
    } else {
      assert acts[..j] == acts;
    }
  }

  /** At every moment at most one role is live. */
  lemma {:induction false} OneLive(acts: seq<Act>, r: nat, q: nat)
    requires Sum(acts).lawful && r in Sum(acts).live && q in Sum(acts).live
    ensures r == q && r < Sum(acts).created
  {
    if acts != [] {
      var before := Sum(acts[..|acts| - 1]);
      if r in before.live && q in before.live {
        OneLive(acts[..|acts| - 1], r, q);
      }
    }
  }

  /** A role that was destroyed never does anything again. */
  lemma {:induction false} InertOnceDestroyed(acts: seq<Act>, i: nat, j: nat)
    requires Sum(acts).lawful && i < j < |acts| && acts[i].Destroyed?
    ensures acts[j].role != acts[i].role
  {
    LawfulBefore(acts, i + 1);
    assert acts[..i + 1][..i] == acts[..i];
    OneLive(acts[..i], acts[i].role, acts[i].role);
    GoneFor(acts, i, j);
    LawfulBefore(acts, j + 1);
    assert acts[..j + 1][..j] == acts[..j];
  }

  lemma {:induction false} GoneFor(acts: seq<Act>, i: nat, j: nat)
    requires Sum(acts).lawful && i < j <= |acts| && acts[i].Destroyed?
    requires acts[i].role < Sum(acts[..i]).created
    ensures acts[i].role !in Sum(acts[..j]).live && acts[i].role < Sum(acts[..j]).created
  {
    assert acts[..j][..j - 1] == acts[..j - 1] && acts[..j][j - 1] == acts[j - 1];
    LawfulBefore(acts, j);
    if i < j - 1 {
      GoneFor(acts, i, j - 1);
    }
  }

  /** What an operation of a role ends with. */
  datatype Ending = Done | Waits | Converts | Crashes

  class RoleKeeper {
    var currentRole: Option<nat>

    /** By role: the flag that destroy sets, which also stops its consumer, and whether a timer is set. */
    var destroyed: seq<bool>
    var timers: seq<bool>

    /** The roles that have an operation waiting for a write. */
    var waiting: set<nat>

    ghost var acts: seq<Act>

    ghost predicate Valid()
      reads this
    {
      && |timers| == |destroyed|
      && (forall r :: 0 <= r < |destroyed| ==> (!destroyed[r] <==> currentRole == Some(r)))
      && (forall r :: 0 <= r < |destroyed| && timers[r] ==> !destroyed[r])
      && (currentRole.Some? ==> currentRole.value < |destroyed|)
      && (forall r :: r in waiting ==> r < |destroyed|)
      && Sum(acts) == Summary(|destroyed|, if currentRole.Some? then {currentRole.value} else {}, true)
    }

    constructor ()
      ensures Valid() && currentRole == None && acts == []
    {
      currentRole, destroyed, timers, waiting, acts := None, [], [], {}, [];
    }

    /** Closing, crashing or converting destroys the current role, if there is one. */
    method DestroyRole()
      requires Valid()
      modifies this`currentRole, this`destroyed, this`timers, this`acts
      ensures Valid() && currentRole == None && |destroyed| == old(|destroyed|) && old(acts) <= acts
      ensures forall r :: 0 <= r < |destroyed| ==> destroyed[r]
    {
      if currentRole.Some? {
        var r := currentRole.value;
        SumStep(acts, Destroyed(r));
        destroyed, timers := destroyed[r := true], timers[r := false];
        currentRole := None;
        acts := acts + [Destroyed(r)];
      }
    }

    /** Sending, taking a message and converting need a live role. */
    method Do(r: nat, ghost a: Act)
      requires Valid() && r < |destroyed| && !destroyed[r] && a in {Sent(r), Took(r), Converted(r), Announced(r)}
      modifies this`acts
      ensures Valid() && acts == old(acts) + [a]
    {
      SumStep(acts, a);
      acts := acts + [a];
    }

    /** A role's timer is set by its start, or once its first requests are sent. */
    method SetTimer(r: nat)
      requires Valid() && r < |destroyed| && !destroyed[r]
      modifies this`timers
      ensures Valid()
    {
      timers := timers[r := true];
    }

    method NewRole() returns (r: nat)
      requires Valid() && currentRole == None
      modifies this`currentRole, this`destroyed, this`timers, this`acts
      ensures Valid() && currentRole == Some(r) && r == old(|destroyed|) && |destroyed| == r + 1 && old(acts) <= acts
    {
      r := |destroyed|;
      SumStep(acts, Created(r));
      destroyed, timers, currentRole := destroyed + [false], timers + [false], Some(r);
      acts := acts + [Created(r)];
    }

    /** A conversion, up to the end of the new role's start. It first sends, or handles the replayed message, and then
        consumes messages; while it waits for a write, as a candidate does before its first requests, it does neither.
        The event is only emitted for a role that is still current by then. */
    method Convert(inbox: nat) returns (rest: nat)
      requires Valid()
      modifies this
      ensures Valid() && rest <= inbox && old(acts) <= acts && old(|destroyed|) <= |destroyed|
      decreases inbox, 2
    {
      DestroyRole();
      var r := NewRole();
      var start: Ending := *;
      rest := Start(r, start, inbox);
      if currentRole == Some(r) {
        Do(r, Announced(r));
      }
    }

    /** The first operation of a new role, which does not convert. */
    method Start(r: nat, start: Ending, inbox: nat) returns (rest: nat)
      requires Valid() && r < |destroyed| && !destroyed[r]
      modifies this
      ensures Valid() && rest <= inbox && old(acts) <= acts && old(|destroyed|) <= |destroyed|
      ensures start == Waits ==> acts == old(acts) && rest == inbox && r in waiting
      decreases inbox, 1
    {
      rest := inbox;
      match start {
        case Waits =>
          waiting := waiting + {r};
          return;
        case Crashes => DestroyRole();
        case _ => MaySend(r);
      }
      rest := Consume(r, inbox);
    }

    /** The end of an operation that is done. */
    method MaySend(r: nat)
      requires Valid() && r < |destroyed| && !destroyed[r]
      modifies this`acts, this`timers
      ensures Valid() && old(acts) <= acts
    {
      var sends: bool, sets: bool := *, *;
      if sends {
        Do(r, Sent(r));
      }
      if sets {
        SetTimer(r);
      }
    }

    /** The consumer of a role: each message may make the server convert, which stops this consumer. */
    method Consume(r: nat, inbox: nat) returns (rest: nat)
      requires Valid() && r < |destroyed|
      modifies this
      ensures Valid() && rest <= inbox && old(acts) <= acts && old(|destroyed|) <= |destroyed|
      ensures old(destroyed[r]) ==> acts == old(acts) && rest == inbox
      decreases inbox, 0
    {
      rest := inbox;
      while rest > 0 && !destroyed[r]
        invariant Valid() && rest <= inbox && old(acts) <= acts && old(|destroyed|) <= |destroyed|
        invariant old(destroyed[r]) ==> acts == old(acts) && rest == inbox && destroyed[r]
        decreases rest
      {
        rest := rest - 1;
        Do(r, Took(r));
        var ending: Ending := *;
        rest := End(r, ending, rest);
        if ending == Waits {
          return;
        }
      }
    }

    /** The end of an operation of a live role. */
    method End(r: nat, ending: Ending, inbox: nat) returns (rest: nat)
      requires Valid() && r < |destroyed| && !destroyed[r]
      modifies this
      ensures Valid() && rest <= inbox && old(acts) <= acts && old(|destroyed|) <= |destroyed|
      decreases inbox, 3
    {
      rest := inbox;
      match ending {
        case Done => MaySend(r);
        case Waits => waiting := waiting + {r};
        case Converts =>
          Do(r, Converted(r));
          rest := Convert(inbox);
        case Crashes => DestroyRole();
      }
    }

    /** A write is done. The operation goes on only if its role was not destroyed in the meantime, and then
        the role consumes further messages. */
    method Resume(r: nat, ending: Ending, inbox: nat) returns (rest: nat)
      requires Valid() && r in waiting
      modifies this
      ensures Valid() && rest <= inbox && old(acts) <= acts
      ensures old(destroyed[r]) ==> acts == old(acts) && rest == inbox
    {
      waiting := waiting - {r};
      rest := inbox;
      if destroyed[r] {
        return;
      }
      rest := End(r, ending, rest);
      if ending != Waits {
        rest := Consume(r, rest);
      }
    }

    /** A timer fires, which it can only do while it is set. */
    method Timeout(r: nat, ending: Ending, inbox: nat) returns (rest: nat)
      requires Valid() && r < |timers| && timers[r]
      modifies this
      ensures Valid() && rest <= inbox && old(acts) <= acts
    {
      rest := End(r, ending, inbox);
    }
  }
}
