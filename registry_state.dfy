/** The manufacturer-verification registry as a pure state machine.
    A state holds one administrator and the set of verified manufacturers;
    each entry point maps a state, a caller and an argument to a response
    and the next state. The class in module ManufacturerVerification is
    proved against these functions, and the lemmas below state what the
    registry promises about single calls and about whole sequences of calls. */
module RegistryState {

  /** A principal. Nothing about it is interpreted beyond equality. */
  type Identity(==, !new)

  /** Error codes returned by the registry. */
  const ErrNotAdmin: int := 100
  const ErrAlreadyVerified: int := 101
  const ErrNotVerified: int := 102

  /** What an entry point returns: `ok` with a value or `err` with a code. */
  datatype Response = Ok(value: bool) | Err(code: int)

  /** The registry's whole state: exactly one admin and a set of verified
      manufacturers (a set, so no identity is held twice). */
  datatype State = State(admin: Identity, verified: set<Identity>)

  /** A response together with the state the call leaves behind. */
  datatype Outcome = Outcome(response: Response, next: State)

  /** The state a fresh registry starts in: the creator is the admin and
      nobody is verified. */
  function Init(creator: Identity): (s: State)
  {
    State(creator, {})
  }

  /** The admin check: the caller is the current admin. */
  predicate IsAdmin(s: State, caller: Identity)
  {
    caller == s.admin
  }

  /** The membership query; it needs no authorisation. */
  predicate IsVerifiedManufacturer(s: State, m: Identity)
  {
    m in s.verified
  }

  /** The registry itself is untouched. */
  predicate Unchanged(s: State, o: Outcome)
  {
    o.next == s
  }

  /** `t` and `s` agree on the verified status of every identity other than `m`. */
  ghost predicate OthersKeepStatus(s: State, t: State, m: Identity)
  {
    forall x :: x != m ==> (IsVerifiedManufacturer(t, x) <==> IsVerifiedManufacturer(s, x))
  }

  /** addManufacturer: admin only (100), fails on an already verified
      target (101), otherwise verifies the target. */
  function AddManufacturer(s: State, caller: Identity, m: Identity): (o: Outcome)
    ensures o.response == Err(ErrNotAdmin) <==> !IsAdmin(s, caller)
    ensures o.response == Err(ErrAlreadyVerified) <==> IsAdmin(s, caller) && IsVerifiedManufacturer(s, m)
    ensures o.response == Ok(true) <==> IsAdmin(s, caller) && !IsVerifiedManufacturer(s, m)
    ensures o.response.Err? ==> Unchanged(s, o)
    ensures o.response.Ok? ==>
      o.next.admin == s.admin && IsVerifiedManufacturer(o.next, m) && OthersKeepStatus(s, o.next, m)
  {
    if !IsAdmin(s, caller) then
      Outcome(Err(ErrNotAdmin), s)
    else if m in s.verified then
      Outcome(Err(ErrAlreadyVerified), s)
    else
      Outcome(Ok(true), s.(verified := s.verified + {m}))
  }

  /** removeManufacturer: admin only (100), fails on a target that is not
      verified (102), otherwise unverifies the target. */
  function RemoveManufacturer(s: State, caller: Identity, m: Identity): (o: Outcome)
    ensures o.response == Err(ErrNotAdmin) <==> !IsAdmin(s, caller)
    ensures o.response == Err(ErrNotVerified) <==> IsAdmin(s, caller) && !IsVerifiedManufacturer(s, m)
    ensures o.response == Ok(true) <==> IsAdmin(s, caller) && IsVerifiedManufacturer(s, m)
    ensures o.response.Err? ==> Unchanged(s, o)
    ensures o.response.Ok? ==>
      o.next.admin == s.admin && !IsVerifiedManufacturer(o.next, m) && OthersKeepStatus(s, o.next, m)
  {
    if !IsAdmin(s, caller) then
      Outcome(Err(ErrNotAdmin), s)
    else if m !in s.verified then
      Outcome(Err(ErrNotVerified), s)
    else
      Outcome(Ok(true), s.(verified := s.verified - {m}))
  }

  /** transferAdmin: admin only (100); otherwise the new admin replaces the
      old one, whoever it is, and the verified set is kept. */
  function TransferAdmin(s: State, caller: Identity, newAdmin: Identity): (o: Outcome)
    ensures o.response == Err(ErrNotAdmin) <==> !IsAdmin(s, caller)
    ensures o.response == Ok(true) <==> IsAdmin(s, caller)
    ensures o.response.Err? ==> Unchanged(s, o)
    ensures o.response.Ok? ==> o.next.admin == newAdmin && o.next.verified == s.verified
  {
    if !IsAdmin(s, caller) then
      Outcome(Err(ErrNotAdmin), s)
    else
      Outcome(Ok(true), s.(admin := newAdmin))
  }

  // ---------------------------------------------------------------------
  // Sequences of calls

  /** One call to a mutating entry point, with the caller made explicit. */
  datatype Call =
    | Add(caller: Identity, target: Identity)
    | Remove(caller: Identity, target: Identity)
    | Transfer(caller: Identity, newAdmin: Identity)

  /** Dispatches one call to its entry point. */
  function Step(s: State, c: Call): (o: Outcome)
  {
    match c
    case Add(caller, m) => AddManufacturer(s, caller, m)
    case Remove(caller, m) => RemoveManufacturer(s, caller, m)
    case Transfer(caller, a) => TransferAdmin(s, caller, a)
  }

  /** A call may touch the verified status of `x` only if it names `x` as its target. */
  predicate Targets(c: Call, x: Identity)
  {
    (c.Add? || c.Remove?) && c.target == x
  }

  /** Applies the calls one after the other, each to the state the previous
      one left; the responses come back in call order. */
  function Run(s: State, calls: seq<Call>): (r: (seq<Response>, State))
    ensures |r.0| == |calls|
    ensures forall i :: 0 <= i < |calls| && calls[i].caller != s.admin && r.0[i].Ok? ==>
      exists j :: 0 <= j < i && calls[j].Transfer? && r.0[j].Ok?
    decreases |calls|
  {
    if calls == [] then
      ([], s)
    else
      var o := Step(s, calls[0]);
      var rest := Run(o.next, calls[1..]);
      ([o.response] + rest.0, rest.1)
  }

  // ---------------------------------------------------------------------
  // Properties of single calls

  /** Adding a manufacturer that is already verified fails with 101, and
      the membership stays exactly as it was (the identity is held once). */
  lemma AddTwiceRejected(s: State, a: Identity, m: Identity)
    requires IsAdmin(s, a)
    ensures var first := AddManufacturer(s, a, m);
      var second := AddManufacturer(first.next, a, m);
      second.response == Err(ErrAlreadyVerified) && second.next == first.next
      && second.next.verified == s.verified + {m}
  {
  }

  /** A successful remove undoes a successful add. */
  lemma AddThenRemoveRestores(s: State, a: Identity, m: Identity)
    requires IsAdmin(s, a) && !IsVerifiedManufacturer(s, m)
    ensures var added := AddManufacturer(s, a, m);
      var removed := RemoveManufacturer(added.next, a, m);
      added.response == Ok(true) && removed.response == Ok(true) && removed.next == s
  {
  }

  /** A failed call has no side effect, so repeating it fails the same way
      (idempotence by rejection). */
  lemma RejectionIsRepeatable(s: State, c: Call)
    requires Step(s, c).response.Err?
    ensures Step(Step(s, c).next, c) == Step(s, c)
  {
  }

  /** After a successful transfer from `a` to `b != a`, the old admin is
      refused with 100 on every mutating entry point, and `b` passes the
      admin check: it can verify anyone not yet verified. */
  lemma TransferHandsOverControl(s: State, a: Identity, b: Identity, m: Identity)
    requires IsAdmin(s, a) && a != b
    ensures var t := TransferAdmin(s, a, b).next;
      AddManufacturer(t, a, m).response == Err(ErrNotAdmin)
      && RemoveManufacturer(t, a, m).response == Err(ErrNotAdmin)
      && TransferAdmin(t, a, m).response == Err(ErrNotAdmin)
      && (!IsVerifiedManufacturer(s, m) ==> AddManufacturer(t, b, m).response == Ok(true))
      && (IsVerifiedManufacturer(s, m) ==> RemoveManufacturer(t, b, m).response == Ok(true))
  {
  }

  // ---------------------------------------------------------------------
  // Properties of sequences of calls

  /** Only the admin can change the registry: if no call in a sequence comes
      from the admin, every call is refused with 100 and the state is the
      one the sequence started from. */
  lemma {:induction false} NonAdminCallsChangeNothing(s: State, calls: seq<Call>)
    requires forall i :: 0 <= i < |calls| ==> calls[i].caller != s.admin
    ensures Run(s, calls).1 == s
    ensures forall i :: 0 <= i < |calls| ==> Run(s, calls).0[i] == Err(ErrNotAdmin)
    decreases |calls|
  {
    if calls != [] {
      NonAdminCallsChangeNothing(s, calls[1..]);
    }
  }

  /** The verified status of an identity changes only through calls that
      name it as their target. */
  lemma {:induction false} UntargetedStatusPreserved(s: State, calls: seq<Call>, x: Identity)
    requires forall i :: 0 <= i < |calls| ==> !Targets(calls[i], x)
    ensures IsVerifiedManufacturer(Run(s, calls).1, x) <==> IsVerifiedManufacturer(s, x)
    decreases |calls|
  {
    if calls != [] {
      var o := Step(s, calls[0]);
      assert IsVerifiedManufacturer(o.next, x) <==> IsVerifiedManufacturer(s, x);
      UntargetedStatusPreserved(o.next, calls[1..], x);
    }
  }

  /** The admin changes only through transfers: without a transfer call the
      admin at the end is the admin at the start. */
  lemma {:induction false} AdminChangesOnlyByTransfer(s: State, calls: seq<Call>)
    requires forall i :: 0 <= i < |calls| ==> !calls[i].Transfer?
    ensures Run(s, calls).1.admin == s.admin
    decreases |calls|
  {
    if calls != [] {
      AdminChangesOnlyByTransfer(Step(s, calls[0]).next, calls[1..]);
    }
  }

  // ---------------------------------------------------------------------
  // A scenario of several calls

  /** A longer scenario over distinct principals `a`, `b` and manufacturers
      `m`, `n`: add, add again, remove, remove again, a non-admin add,
      a transfer, then the new and the old admin each try to add. */
  lemma {:induction false} TransferScenario(a: Identity, b: Identity, m: Identity, n: Identity)
    requires a != b && m != n
    ensures var calls := [Add(a, m), Add(a, m), Remove(a, m), Remove(a, m),
                          Add(b, n), Transfer(a, b), Add(b, n), Add(a, m)];
      Run(Init(a), calls) ==
        ([Ok(true), Err(ErrAlreadyVerified), Ok(true), Err(ErrNotVerified),
          Err(ErrNotAdmin), Ok(true), Ok(true), Err(ErrNotAdmin)],
         State(b, {n}))
  {
    var calls := [Add(a, m), Add(a, m), Remove(a, m), Remove(a, m),
                  Add(b, n), Transfer(a, b), Add(b, n), Add(a, m)];
    var responses := [Ok(true), Err(ErrAlreadyVerified), Ok(true), Err(ErrNotVerified),
                      Err(ErrNotAdmin), Ok(true), Ok(true), Err(ErrNotAdmin)];
    // the state before each call, and after the last one
    var states := [Init(a), State(a, {m}), State(a, {m}), State(a, {}), State(a, {}),
                   State(a, {}), State(b, {}), State(b, {n}), State(b, {n})];
    assert {} + {m} == {m} && {m} - {m} == {} && {} + {n} == {n};
    forall k | 0 <= k < 8
      ensures Step(states[k], calls[k]) == Outcome(responses[k], states[k + 1])
    {
    }
    var k := 8;
    while k > 0
      invariant 0 <= k <= 8
      invariant Run(states[k], calls[k..]) == (responses[k..], states[8])
    {
      k := k - 1;
      assert calls[k..][0] == calls[k] && calls[k..][1..] == calls[k + 1..];
      assert responses[k..] == [responses[k]] + responses[k + 1..];
    }
  }
}
