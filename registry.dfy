/** The registry as the mutable contract state the entry points update in
    place: an admin field and a verified-manufacturer set. Each mutating
    method is proved to leave the response and the new state that the
    matching function of RegistryState prescribes, so every property
    proved there holds of the object. */
module ManufacturerVerification {
  import opened RegistryState

  class Registry {
    var admin: Identity
    var verified: set<Identity>

    /** The state as the pure model sees it. */
    function Snapshot(): (s: State)
      reads this
    {
      State(admin, verified)
    }

    /** A fresh registry: the creator is admin and nobody is verified. */
    constructor (creator: Identity)
      ensures Snapshot() == Init(creator)
    {
      admin := creator;
      verified := {};
    }

    /** The admin check, with the caller passed explicitly. */
    method IsAdmin(caller: Identity) returns (b: bool)
      ensures b <==> RegistryState.IsAdmin(Snapshot(), caller)
    {
      b := caller == admin;
    }

    /** Membership query: a pure read that needs no authorisation. */
    method IsVerifiedManufacturer(m: Identity) returns (b: bool)
      ensures b <==> RegistryState.IsVerifiedManufacturer(Snapshot(), m)
    {
      b := m in verified;
    }

    /** Verifies `m`; refused with 100 for a non-admin caller and with 101
        when `m` is already verified. */
    method AddManufacturer(caller: Identity, m: Identity) returns (r: Response)
      modifies this
      ensures Outcome(r, Snapshot()) == RegistryState.AddManufacturer(old(Snapshot()), caller, m)
    {
      var ok := IsAdmin(caller);
      if !ok {
        return Err(ErrNotAdmin);
      }
      if m in verified {
        return Err(ErrAlreadyVerified);
      }
      verified := verified + {m};
      r := Ok(true);
    }

    /** Unverifies `m`; refused with 100 for a non-admin caller and with 102
        when `m` is not verified. */
    method RemoveManufacturer(caller: Identity, m: Identity) returns (r: Response)
      modifies this
      ensures Outcome(r, Snapshot()) == RegistryState.RemoveManufacturer(old(Snapshot()), caller, m)
    {
      var ok := IsAdmin(caller);
      if !ok {
        return Err(ErrNotAdmin);
      }
      if m !in verified {
        return Err(ErrNotVerified);
      }
      verified := verified - {m};
      r := Ok(true);
    }

    /** Hands the admin role to `newAdmin`, unvalidated; refused with 100
        for a non-admin caller. */
    method TransferAdmin(caller: Identity, newAdmin: Identity) returns (r: Response)
      modifies this
      ensures Outcome(r, Snapshot()) == RegistryState.TransferAdmin(old(Snapshot()), caller, newAdmin)
    {
      var ok := IsAdmin(caller);
      if !ok {
        return Err(ErrNotAdmin);
      }
      admin := newAdmin;
      r := Ok(true);
    }
  }

  /** The five test cases run against the object, each on a registry
      freshly created by `sender`, as the tests reset the state before each
      case. */
  method TestCases(sender: Identity, other: Identity)
    returns (added: bool, addedTwice: Response, removed: bool, removedAbsent: Response, newAdmin: Identity)
    ensures added && !removed
    ensures addedTwice == Err(ErrAlreadyVerified)
    ensures removedAbsent == Err(ErrNotVerified)
    ensures newAdmin == other
  {
    var reg := new Registry(sender);
    var r := reg.AddManufacturer(sender, other);
    assert r == Ok(true);
    added := reg.IsVerifiedManufacturer(other);

    reg := new Registry(sender);
    r := reg.AddManufacturer(sender, other);
    addedTwice := reg.AddManufacturer(sender, other);

    reg := new Registry(sender);
    r := reg.AddManufacturer(sender, other);
    r := reg.RemoveManufacturer(sender, other);
    assert r == Ok(true);
    removed := reg.IsVerifiedManufacturer(other);

    reg := new Registry(sender);
    removedAbsent := reg.RemoveManufacturer(sender, other);

    reg := new Registry(sender);
    r := reg.TransferAdmin(sender, other);
    assert r == Ok(true);
    newAdmin := reg.admin;
  }
}
