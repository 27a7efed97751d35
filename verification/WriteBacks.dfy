/**
 The artifact write-back (`proxy/toolkit.ts`): the per-network entry of a host abstraction, read
 through getters that throw, and put back after a deploy that must not be remembered.
 */
module WriteBacks {
  import opened Wrappers
  import opened World

  /** The transaction an abstraction was last written back from. */
  datatype Hash = OfImplementation(at: Address) | OfTx(tx: TxId)

  /** A field of the per-network entry; a blank string reads as absent. */
  datatype Field<+T> = Unset | Blank | Holds(value: T)

  datatype Entry = Entry(address: Field<Address>, hash: Field<Hash>)

  datatype WriteBack = WriteBack(address: Option<Address>, hash: Option<Hash>)

  function Naming(at: Address, hash: Hash): WriteBack {
    WriteBack(Some(at), Some(hash))
  }

  /** What a guarded read makes of a getter: a throw, an unset or a blank field are all absence. */
  function Guarded<T>(got: Option<Field<T>>): Option<T> {
    if got.Some? && got.value.Holds? then Some(got.value.value) else None
  }

  class Abstraction {
    /** None until something creates the per-network entry. */
    var network: Option<Entry>

    constructor ()
      ensures network.None?
    {
      network := None;
    }

    /** The `address` getter; None when it throws. */
    function AddressGetter(): Option<Field<Address>>
      reads this
    {
      if network.None? || network.value.address.Unset? then None else Some(network.value.address)
    }

    /** The `transactionHash` getter; None when it throws. */
    function HashGetter(): Option<Field<Hash>>
      reads this
    {
      if network.None? || network.value.hash.Unset? then None else Some(network.value.hash)
    }

    /** `readWriteBack`. */
    function ReadWriteBack(): WriteBack
      reads this
    {
      WriteBack(Guarded(AddressGetter()), Guarded(HashGetter()))
    }

    /** The setter that creates the per-network entry. */
    method SetAddress(at: Address)
      modifies this
      ensures network.Some? && network.value.address == Holds(at)
      ensures network.value.hash == if old(network).Some? then old(network.value.hash) else Unset
    {
      if network.None? {
        network := Some(Entry(Holds(at), Unset));
      } else {
        network := Some(network.value.(address := Holds(at)));
      }
    }

    /** The setter goes through the entry, and throws when there is none. */
    method SetHash(hash: Hash) returns (threw: bool)
      modifies this
      ensures threw == old(network).None?
      ensures network == if threw then None else Some(old(network.value).(hash := Holds(hash)))
    {
      if network.None? { return true; }
      network := Some(network.value.(hash := Holds(hash)));
      threw := false;
    }

    /** `resetAddress` deletes the address off the entry, and throws when there is none. */
    method ResetAddress() returns (threw: bool)
      modifies this
      ensures threw == old(network).None?
      ensures network == if threw then None else Some(old(network.value).(address := Unset))
    {
      if network.None? { return true; }
      network := Some(network.value.(address := Unset));
      threw := false;
    }

    /** `delete target.network.transactionHash`. */
    method DeleteHash() returns (threw: bool)
      modifies this
      ensures threw == old(network).None?
      ensures network == if threw then None else Some(old(network.value).(hash := Unset))
    {
      if network.None? { return true; }
      network := Some(network.value.(hash := Unset));
      threw := false;
    }

    /** The assignments of `hostDeploy` once the host's `.new()` resolved. */
    method AssignDeployed(at: Address, hash: Hash)
      modifies this
      ensures network.Some? && ReadWriteBack() == Naming(at, hash)
    {
      SetAddress(at);
      var threw := SetHash(hash);
    }

    /**
     `restoreWriteBack`: exact, except that a hash without an address cannot be put back on an
     abstraction that has no entry.
     */
    method RestoreWriteBack(prior: WriteBack)
      modifies this
      ensures ReadWriteBack() == prior <==>
              (prior.address.Some? || prior.hash.None? || old(network).Some?)
      ensures network.Some? == (old(network).Some? || prior.address.Some?)
    {
      var threw := false;
      if prior.address.None? {
        threw := ResetAddress();
      } else {
        SetAddress(prior.address.value);
      }
      if prior.hash.None? {
        threw := DeleteHash();
      } else {
        threw := SetHash(prior.hash.value);
      }
    }

    /** A hash is only ever read off an entry, so an entry that survives makes a restore exact. */
    twostate lemma RestorableLater()
      requires old(network).Some? ==> network.Some?
      ensures var prior := old(ReadWriteBack());
              prior.address.Some? || prior.hash.None? || network.Some?
    {
    }
  }
}
