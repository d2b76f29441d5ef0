/**
 `LendingPoolAddressesProviderRegistry`: the markets of the protocol. A provider is registered under
 a non-zero id and may be unregistered again; the list of providers only ever grows.
 */
module Registry {
  import opened Evm

  type Address = nat

  const ZERO_ADDRESS: Address := 0

  /** The calls that took effect, oldest first. */
  datatype Change = Registered(provider: Address, id: uint256) | Unregistered(provider: Address)

  /** The id that the changes leave with a provider: the last one that concerns it decides. */
  function IdAfter(h: seq<Change>, p: Address): uint256 {
    if |h| == 0 then 0
    else
      match h[|h| - 1]
      case Registered(q, id) => if q == p then id else IdAfter(h[..|h| - 1], p)
      case Unregistered(q) => if q == p then 0 else IdAfter(h[..|h| - 1], p)
  }

  /** Every provider that was ever registered. */
  ghost function EverRegistered(h: seq<Change>): set<Address> {
    set c | c in h && c.Registered? :: c.provider
  }

  /** They come in the order of their first registration. */
  function FirstSeen(h: seq<Change>): seq<Address> {
    if |h| == 0 then []
    else
      var front, last := FirstSeen(h[..|h| - 1]), h[|h| - 1];
      if last.Registered? && last.provider !in front then front + [last.provider] else front
  }

  ghost predicate NoDuplicates(s: seq<Address>) {
    forall i, j :: 0 <= i < j < |s| ==> s[i] != s[j]
  }

  lemma {:induction false} FirstSeenListsAll(h: seq<Change>)
    ensures NoDuplicates(FirstSeen(h))
    ensures forall p :: p in FirstSeen(h) <==> p in EverRegistered(h)
    ensures |FirstSeen(h)| == |EverRegistered(h)|
  {
    if |h| == 0 {
    } else {
      var front, last := h[..|h| - 1], h[|h| - 1];
      FirstSeenListsAll(front);
      assert h == front + [last];
      if last.Registered? {
        assert EverRegistered(h) == EverRegistered(front) + {last.provider};
      } else {
        assert EverRegistered(h) == EverRegistered(front);
      }
    }
  }

  /** A slot is never reused or moved, whatever happens to its provider later. */
  lemma {:induction false} SlotsAreStable(h: seq<Change>, later: seq<Change>)
    ensures FirstSeen(h) <= FirstSeen(h + later)
  {
    if |later| == 0 {
      assert h + later == h;
    } else {
      SlotsAreStable(h, later[..|later| - 1]);
      assert (h + later)[..|h + later| - 1] == h + later[..|later| - 1];
    }
  }

  /** Whoever has an id has a slot. */
  lemma {:induction false} RegisteredIsListed(h: seq<Change>, p: Address)
    requires IdAfter(h, p) != 0
    ensures p in EverRegistered(h)
  {
    var front, last := h[..|h| - 1], h[|h| - 1];
    assert last in h;
    if last.Registered? && last.provider == p {
    } else {
      RegisteredIsListed(front, p);
    }
  }

  /** The list that is handed out: a slot shows its provider while that is registered, and zero otherwise. */
  function Active(h: seq<Change>): (r: seq<Address>)
    ensures |r| == |FirstSeen(h)|
  {
    var list := FirstSeen(h);
    seq(|list|, i requires 0 <= i < |list| => if IdAfter(h, list[i]) > 0 then list[i] else ZERO_ADDRESS)
  }

  /** The non-zero entries are exactly the registered providers, each in one slot that it keeps. */
  lemma ActiveShowsRegistered(h: seq<Change>)
    ensures |Active(h)| == |EverRegistered(h)|
    ensures forall p :: p != ZERO_ADDRESS ==> (p in Active(h) <==> IdAfter(h, p) > 0)
    ensures forall i, j :: 0 <= i < j < |Active(h)| && Active(h)[i] != ZERO_ADDRESS ==> Active(h)[i] != Active(h)[j]
    ensures forall i :: 0 <= i < |Active(h)| && Active(h)[i] != ZERO_ADDRESS ==> Active(h)[i] == FirstSeen(h)[i]
  {
    FirstSeenListsAll(h);
    forall p | p != ZERO_ADDRESS && IdAfter(h, p) > 0 ensures p in Active(h) {
      RegisteredIsListed(h, p);
      var i :| 0 <= i < |FirstSeen(h)| && FirstSeen(h)[i] == p;
      assert Active(h)[i] == p;
    }
  }

  /** A provider shows up in the same slot in any two of the lists handed out over a run. */
  lemma ActiveSlotIsStable(h: seq<Change>, later: seq<Change>, i: nat, j: nat)
    requires i < |Active(h)| && j < |Active(h + later)|
    requires Active(h)[i] == Active(h + later)[j] != ZERO_ADDRESS
    ensures i == j
  {
    SlotsAreStable(h, later);
    FirstSeenListsAll(h + later);
    assert FirstSeen(h + later)[i] == FirstSeen(h)[i];
  }

  /** The last change decides about its provider and about nobody else. */
  lemma LastChangeDecides(h: seq<Change>, p: Address, q: Address, id: uint256)
    ensures IdAfter(h + [Registered(p, id)], q) == if q == p then id else IdAfter(h, q)
    ensures IdAfter(h + [Unregistered(p)], q) == if q == p then 0 else IdAfter(h, q)
  {
    assert (h + [Registered(p, id)])[..|h|] == h;
    assert (h + [Unregistered(p)])[..|h|] == h;
  }

  /** An unregistered provider is not handed out until it is registered again. */
  lemma {:induction false} UnregisteredStaysOut(h: seq<Change>, p: Address, later: seq<Change>)
    requires p != ZERO_ADDRESS
    requires forall c :: c in later && c.Registered? ==> c.provider != p
    ensures IdAfter(h + [Unregistered(p)] + later, p) == 0
    ensures p !in Active(h + [Unregistered(p)] + later)
  {
    var run := h + [Unregistered(p)] + later;
    if |later| == 0 {
      assert run == h + [Unregistered(p)];
      LastChangeDecides(h, p, p, 1);
    } else {
      var last := later[|later| - 1];
      assert last in later;
      UnregisteredStaysOut(h, p, later[..|later| - 1]);
      assert run == h + [Unregistered(p)] + later[..|later| - 1] + [last];
      LastChangeDecides(h + [Unregistered(p)] + later[..|later| - 1], last.provider, p,
        if last.Registered? then last.id else 1);
    }
    ActiveShowsRegistered(run);
  }

  class LendingPoolAddressesProviderRegistry {
    var addressesProviders: map<Address, uint256>
    var addressesProvidersList: seq<Address>
    ghost var history: seq<Change>

    constructor ()
      ensures Valid() && history == []
      ensures addressesProvidersList == [] && forall p :: Id(p) == 0
    {
      addressesProviders, addressesProvidersList, history := map[], [], [];
    }

    /** The map and the list are what the changes so far make them. */
    ghost predicate Valid()
      reads this
    {
      && (forall p :: Id(p) == IdAfter(history, p))
      && addressesProvidersList == FirstSeen(history)
    }

    function Id(p: Address): uint256
      reads this
    {
      if p in addressesProviders then addressesProviders[p] else 0
    }

    method GetAddressesProvidersList() returns (activeProviders: seq<Address>)
      requires Valid()
      ensures activeProviders == Active(history)
      ensures forall p :: p != ZERO_ADDRESS ==> (p in activeProviders <==> Id(p) > 0)
    {
      ActiveShowsRegistered(history);
      var maxLength := |addressesProvidersList|;
      activeProviders := seq(maxLength, _ => ZERO_ADDRESS);
      for i := 0 to maxLength
        invariant |activeProviders| == maxLength
        invariant activeProviders[..i] == Active(history)[..i]
        invariant forall k :: i <= k < maxLength ==> activeProviders[k] == ZERO_ADDRESS
      {
        if Id(addressesProvidersList[i]) > 0 {
          activeProviders := activeProviders[i := addressesProvidersList[i]];
        }
        assert activeProviders[i] == Active(history)[i];
      }
    }

    method RegisterAddressesProvider(provider: Address, id: uint256) returns (o: Outcome)
      requires Valid()
      modifies this
      ensures Valid()
      ensures o.Pass? <==> id != 0
      ensures forall p :: Id(p) == if o.Pass? && p == provider then id else old(Id(p))
      ensures history == if o.Pass? then old(history) + [Registered(provider, id)] else old(history)
    {
      o := Pass;
      :- Need(id != 0, InvalidAmount);
      addressesProviders := addressesProviders[provider := id];
      AddToAddressesProvidersList(provider);
      history := history + [Registered(provider, id)];
      assert history[..|history| - 1] == old(history);
    }

    method UnregisterAddressesProvider(provider: Address) returns (o: Outcome)
      requires Valid()
      modifies this
      ensures Valid()
      ensures o.Pass? <==> old(Id(provider)) > 0
      ensures forall p :: Id(p) == if o.Pass? && p == provider then 0 else old(Id(p))
      ensures history == if o.Pass? then old(history) + [Unregistered(provider)] else old(history)
    {
      o := Pass;
      :- Need(Id(provider) > 0, Rejected);
      addressesProviders := addressesProviders[provider := 0];
      history := history + [Unregistered(provider)];
      assert history[..|history| - 1] == old(history);
    }

    method GetAddressesProviderIdByAddress(provider: Address) returns (id: uint256)
      requires Valid()
      ensures id == IdAfter(history, provider) == Id(provider)
    {
      id := Id(provider);
    }

    method AddToAddressesProvidersList(provider: Address)
      modifies this`addressesProvidersList
      ensures addressesProvidersList ==
              if provider in old(addressesProvidersList) then old(addressesProvidersList)
              else old(addressesProvidersList) + [provider]
    {
      var providersCount := |addressesProvidersList|;
      for i := 0 to providersCount
        invariant addressesProvidersList == old(addressesProvidersList)
        invariant provider !in addressesProvidersList[..i]
      {
        if addressesProvidersList[i] == provider {
          return;
        }
      }
      addressesProvidersList := addressesProvidersList + [provider];
    }
  }
}
