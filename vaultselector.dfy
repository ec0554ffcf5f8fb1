/**
 * Choosing a vault (pkg/vault/vaultselector.go): by name, the only one, or
 * by the user's pick among several. The vault list (GetVaults' result) and
 * the pick are passed in.
 */
module VaultSelector {
  import opened Wrappers
  import opened Vault

  /** The position of the first vault with that name, or |vaults| when there is none. */
  function FirstNamed(vaults: seq<Vault>, name: string): (i: nat)
    ensures i <= |vaults|
    ensures i < |vaults| ==> vaults[i].name == name
    ensures forall k :: 0 <= k < i ==> vaults[k].name != name
  {
    if vaults == [] then 0
    else if vaults[0].name == name then 0
    else 1 + FirstNamed(vaults[1..], name)
  }

  /** vaultMap[name]: the last vault with that name wins; None stands for the nil pointer of a missing key. */
  function LastNamed(vaults: seq<Vault>, name: string): (r: Option<Vault>)
    ensures r.Some? ==> r.value in vaults && r.value.name == name
    ensures r.None? <==> forall k :: 0 <= k < |vaults| ==> vaults[k].name != name
  {
    if vaults == [] then None
    else if vaults[|vaults| - 1].name == name then Some(vaults[|vaults| - 1])
    else LastNamed(vaults[..|vaults| - 1], name)
  }

  function Names(vaults: seq<Vault>): (r: seq<string>)
    ensures |r| == |vaults|
    ensures forall i :: 0 <= i < |vaults| ==> r[i] == vaults[i].name
  {
    if vaults == [] then [] else Names(vaults[..|vaults| - 1]) + [vaults[|vaults| - 1].name]
  }

  /** `m` maps each name to the last vault of `vaults` with that name, and has no other key. */
  ghost predicate MapsLastNamed(m: map<string, Vault>, vaults: seq<Vault>)
  {
    forall n :: (n in m <==> LastNamed(vaults, n).Some?) && (n in m ==> LastNamed(vaults, n) == Some(m[n]))
  }

  /** One more vault becomes the entry of its name, and its name is listed. */
  lemma SelectStep(vaults: seq<Vault>, i: nat, m: map<string, Vault>)
    requires i < |vaults| && MapsLastNamed(m, vaults[..i])
    ensures MapsLastNamed(m[vaults[i].name := vaults[i]], vaults[..i + 1])
    ensures Names(vaults[..i + 1]) == Names(vaults[..i]) + [vaults[i].name]
  {
    assert vaults[..i + 1][..i] == vaults[..i];
  }

  /**
   * selectVault: fills the name-to-vault map and the name list, asks `pick`
   * (util.PickName over the names) and returns the map's entry.
   */
  method SelectVault(vaults: seq<Vault>, pick: seq<string> -> Result<string>) returns (r: Result<Option<Vault>>)
    ensures pick(Names(vaults)).Err? ==> r == Err(pick(Names(vaults)).msg)
    ensures pick(Names(vaults)).Ok? ==> r == Ok(LastNamed(vaults, pick(Names(vaults)).value))
  {
    var vaultMap: map<string, Vault> := map[];
    var vaultNames: seq<string> := [];
    var i := 0;
    while i < |vaults|
      invariant 0 <= i <= |vaults|
      invariant vaultNames == Names(vaults[..i])
      invariant MapsLastNamed(vaultMap, vaults[..i])
    {
      SelectStep(vaults, i, vaultMap);
      vaultMap := vaultMap[vaults[i].name := vaults[i]];
      vaultNames := vaultNames + [vaults[i].name];
      i := i + 1;
    }
    assert vaults[..i] == vaults;
    var picked := pick(vaultNames);
    assert picked.Ok? ==> (picked.value in vaultMap <==> LastNamed(vaults, picked.value).Some?);
    if picked.Err? {
      return Err(picked.msg);
    }
    if picked.value in vaultMap {
      return Ok(Some(vaultMap[picked.value]));
    }
    return Ok(None);
  }

  /**
   * GetVault. `vaults` is GetVaults' result for `namespace`. With a name the
   * first vault of that name is returned; without one, no vault is an
   * error, a single vault is returned as it is and several go to the pick.
   */
  method GetVault(name: string, namespace: string, vaults: Result<seq<Vault>>, pick: seq<string> -> Result<string>)
    returns (r: Result<Option<Vault>>)
    ensures vaults.Err? ==> r == Err(vaults.msg)
    ensures vaults.Ok? && name != "" ==>
              var i := FirstNamed(vaults.value, name);
              r == if i < |vaults.value| then Ok(Some(vaults.value[i]))
                   else Err("vault '" + name + "' not found in namespace '" + namespace + "'")
    ensures vaults.Ok? && name == "" && vaults.value == [] ==> r == Err("no vaults found in namespace '" + namespace + "'")
    ensures vaults.Ok? && name == "" && |vaults.value| == 1 ==> r == Ok(Some(vaults.value[0]))
    ensures vaults.Ok? && name == "" && |vaults.value| > 1 ==>
              var picked := pick(Names(vaults.value));
              r == if picked.Err? then Err(picked.msg) else Ok(LastNamed(vaults.value, picked.value))
  {
    if vaults.Err? {
      return Err(vaults.msg);
    }
    var vs := vaults.value;
    if name != "" {
      var i := 0;
      while i < |vs|
        invariant 0 <= i <= |vs|
        invariant forall k :: 0 <= k < i ==> vs[k].name != name
      {
        if vs[i].name == name {
          FirstNamedIs(vs, name, i);
          return Ok(Some(vs[i]));
        }
        i := i + 1;
      }
      FirstNamedIs(vs, name, |vs|);
      return Err("vault '" + name + "' not found in namespace '" + namespace + "'");
    }
    if |vs| == 0 {
      return Err("no vaults found in namespace '" + namespace + "'");
    }
    if |vs| > 1 {
      r := SelectVault(vs, pick);
      return;
    }
    return Ok(Some(vs[0]));
  }

  /** FirstNamed is pinned down by its two properties. */
  lemma {:induction false} FirstNamedIs(vaults: seq<Vault>, name: string, i: nat)
    requires i <= |vaults|
    requires i < |vaults| ==> vaults[i].name == name
    requires forall k :: 0 <= k < i ==> vaults[k].name != name
    ensures FirstNamed(vaults, name) == i
  {
    if vaults != [] && i > 0 {
      FirstNamedIs(vaults[1..], name, i - 1);
    }
  }
}

module VaultSelectorProperties {
  import opened Wrappers
  import opened Vault
  import opened VaultSelector

  /** With a single vault the pick is never consulted: any two picks give the same vault. */
  lemma SingleVaultNeedsNoPick(v: Vault)
    ensures FirstNamed([v], v.name) == 0
    ensures LastNamed([v], v.name) == Some(v)
  {
  }

  /** The pick sees every vault's name in list order, so a picked name always finds a vault. */
  lemma PickedNameFound(vaults: seq<Vault>, k: nat)
    requires k < |vaults|
    ensures LastNamed(vaults, Names(vaults)[k]).Some?
    ensures LastNamed(vaults, Names(vaults)[k]).value.name == vaults[k].name
  {
  }

  /** With distinct names the picked name returns exactly the vault at that position. */
  lemma {:induction false} DistinctPick(vaults: seq<Vault>, k: nat)
    requires k < |vaults|
    requires forall i, j :: 0 <= i < j < |vaults| ==> vaults[i].name != vaults[j].name
    ensures LastNamed(vaults, vaults[k].name) == Some(vaults[k])
  {
    if k < |vaults| - 1 {
      DistinctPick(vaults[..|vaults| - 1], k);
    }
  }
}
