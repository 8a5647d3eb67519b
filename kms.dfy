/** The key-management alias map of kms.go: two lookups between KMS alias names
    ("alias/...") and key ids, and the loop that fills them from an alias listing. */
module Kms {
  import opened Wrappers
  import opened GoStrings

  const AliasPrefix := "alias/"

  /** Lookup in a Go map, `v, ok := m[k]`, as an option. */
  function Get(m: map<string, string>, k: string): (r: Option<string>)
    ensures r.Some? <==> k in m
    ensures r.Some? ==> r.value == m[k]
  {
    if k in m then Some(m[k]) else None
  }

  /** The alias name with "alias/" put in front unless it is already there. */
  function Qualify(alias: string): (r: string)
    ensures HasPrefix(r, AliasPrefix)
    ensures HasPrefix(alias, AliasPrefix) ==> r == alias
    ensures !HasPrefix(alias, AliasPrefix) ==> r == AliasPrefix + alias
  {
    if HasPrefix(alias, AliasPrefix) then alias else AliasPrefix + alias
  }

  /** KmsMap: alias name to key id, and key id to alias name. */
  datatype KmsMap = KmsMap(aliasesToKeys: map<string, string>, keysToAliases: map<string, string>)
  {
    /** deref: the key id an alias stands for; on a miss, the qualified alias
        itself, which the key service also accepts. It never fails. */
    function Deref(alias: string): (r: string)
      ensures Qualify(alias) in aliasesToKeys ==> r == aliasesToKeys[Qualify(alias)]
      ensures Qualify(alias) !in aliasesToKeys ==> r == Qualify(alias) && HasPrefix(r, AliasPrefix)
      ensures r in aliasesToKeys.Values || (HasPrefix(r, AliasPrefix) && r !in aliasesToKeys)
    {
      var fqAlias := Qualify(alias);
      if fqAlias in aliasesToKeys then aliasesToKeys[fqAlias] else fqAlias
    }

    /** aliasFor: the alias recorded for a key id, or the key id itself on a miss. */
    function AliasFor(keyId: string): (r: string)
      ensures keyId in keysToAliases ==> r == keysToAliases[keyId]
      ensures keyId !in keysToAliases ==> r == keyId
      ensures r in keysToAliases.Values || r == keyId
    {
      if keyId in keysToAliases then keysToAliases[keyId] else keyId
    }
  }

  const Empty := KmsMap(map[], map[])

  /** Writing the "alias/" prefix or leaving it out names the same alias. */
  lemma DerefQualified(m: KmsMap, x: string)
    requires !HasPrefix(x, AliasPrefix)
    ensures m.Deref(x) == m.Deref(AliasPrefix + x)
  {
    assert HasPrefix(AliasPrefix + x, AliasPrefix) by {
      assert (AliasPrefix + x)[..|AliasPrefix|] == AliasPrefix;
    }
  }

  /** One entry of a ListAliases result; either field may be missing. */
  datatype AliasEntry = AliasEntry(aliasName: Option<string>, targetKeyId: Option<string>)
  {
    predicate Complete() { aliasName.Some? && targetKeyId.Some? }
  }

  /** The outcome of the ListAliases request. */
  datatype AliasListing = ListFailed(err: string) | Listed(aliases: seq<AliasEntry>)

  /** One iteration of the build loop. */
  function Add(m: KmsMap, e: AliasEntry): KmsMap
  {
    if e.Complete() then
      KmsMap(m.aliasesToKeys[e.aliasName.value := e.targetKeyId.value],
             m.keysToAliases[e.targetKeyId.value := e.aliasName.value])
    else m
  }

  /** The maps after the build loop has run over `entries` in order. */
  function Record(m: KmsMap, entries: seq<AliasEntry>): KmsMap
  {
    if entries == [] then m else Add(Record(m, entries[..|entries| - 1]), entries[|entries| - 1])
  }

  /** buildAliasList: on a listing error the maps are left as they were and the
      error is returned; otherwise every entry is recorded in listing order. */
  method BuildAliasList(listing: AliasListing, kms: KmsMap) returns (r: KmsMap, err: Option<string>)
    ensures listing.ListFailed? ==> r == kms && err == Some(listing.err)
    ensures listing.Listed? ==> r == Record(kms, listing.aliases) && err == None
  {
    if listing.ListFailed? {
      return kms, Some(listing.err);
    }
    var entries := listing.aliases;
    r := kms;
    for i := 0 to |entries|
      invariant r == Record(kms, entries[..i])
    {
      assert entries[..i + 1][..i] == entries[..i];
      var entry := entries[i];
      if entry.targetKeyId.Some? && entry.aliasName.Some? {
        r := KmsMap(r.aliasesToKeys[entry.aliasName.value := entry.targetKeyId.value],
                    r.keysToAliases[entry.targetKeyId.value := entry.aliasName.value]);
      }
    }
    assert entries[..|entries|] == entries;
    return r, None;
  }

  /** The target of the last complete entry naming `alias`, if any. */
  function LastTarget(entries: seq<AliasEntry>, alias: string): Option<string>
  {
    if entries == [] then None
    else
      var e := entries[|entries| - 1];
      if e.Complete() && e.aliasName.value == alias then e.targetKeyId
      else LastTarget(entries[..|entries| - 1], alias)
  }

  /** The alias of the last complete entry targeting `keyId`, if any. */
  function LastAlias(entries: seq<AliasEntry>, keyId: string): Option<string>
  {
    if entries == [] then None
    else
      var e := entries[|entries| - 1];
      if e.Complete() && e.targetKeyId.value == keyId then e.aliasName
      else LastAlias(entries[..|entries| - 1], keyId)
  }

  function OrElse(a: Option<string>, b: Option<string>): Option<string>
  {
    if a.Some? then a else b
  }

  /** Last write wins in both maps: an alias maps to the target of the last complete
      entry that names it, a key id to the alias of the last complete entry that
      targets it; anything no entry mentions keeps its earlier mapping. */
  lemma {:induction false} RecordLastWins(m: KmsMap, entries: seq<AliasEntry>, alias: string, keyId: string)
    ensures Get(Record(m, entries).aliasesToKeys, alias) == OrElse(LastTarget(entries, alias), Get(m.aliasesToKeys, alias))
    ensures Get(Record(m, entries).keysToAliases, keyId) == OrElse(LastAlias(entries, keyId), Get(m.keysToAliases, keyId))
  {
    if entries != [] {
      RecordLastWins(m, entries[..|entries| - 1], alias, keyId);
    }
  }

  function CompleteOnly(entries: seq<AliasEntry>): (r: seq<AliasEntry>)
    ensures forall i :: 0 <= i < |r| ==> r[i].Complete()
  {
    if entries == [] then []
    else if entries[|entries| - 1].Complete() then CompleteOnly(entries[..|entries| - 1]) + [entries[|entries| - 1]]
    else CompleteOnly(entries[..|entries| - 1])
  }

  /** Entries lacking an alias name or a target key id have no effect. */
  lemma {:induction false} RecordIgnoresIncomplete(m: KmsMap, entries: seq<AliasEntry>)
    ensures Record(m, entries) == Record(m, CompleteOnly(entries))
  {
    if entries != [] {
      var init := entries[..|entries| - 1];
      var last := entries[|entries| - 1];
      RecordIgnoresIncomplete(m, init);
      if last.Complete() {
        var c := CompleteOnly(init) + [last];
        assert c[..|c| - 1] == CompleteOnly(init);
      }
    }
  }

  /** Alias names of the complete entries are pairwise distinct. */
  predicate DistinctAliases(entries: seq<AliasEntry>)
  {
    forall i, j :: 0 <= i < j < |entries| && entries[i].Complete() && entries[j].Complete() ==>
      entries[i].aliasName != entries[j].aliasName
  }

  lemma {:induction false} LastTargetOfDistinct(entries: seq<AliasEntry>, j: nat)
    requires DistinctAliases(entries)
    requires j < |entries| && entries[j].Complete()
    ensures LastTarget(entries, entries[j].aliasName.value) == entries[j].targetKeyId
  {
    var n := |entries| - 1;
    if j < n {
      assert entries[..n][j] == entries[j];
      LastTargetOfDistinct(entries[..n], j);
    }
  }

  lemma {:induction false} LastAliasFound(entries: seq<AliasEntry>, keyId: string)
    requires LastAlias(entries, keyId).Some?
    ensures exists j :: 0 <= j < |entries| && entries[j].Complete() && entries[j].targetKeyId == Some(keyId)
                        && entries[j].aliasName == LastAlias(entries, keyId)
  {
    var n := |entries| - 1;
    var e := entries[n];
    if !(e.Complete() && e.targetKeyId.value == keyId) {
      LastAliasFound(entries[..n], keyId);
      var j :| 0 <= j < n && entries[..n][j].Complete() && entries[..n][j].targetKeyId == Some(keyId)
               && entries[..n][j].aliasName == LastAlias(entries[..n], keyId);
      assert entries[j] == entries[..n][j];
    }
  }

  lemma {:induction false} LastAliasListed(entries: seq<AliasEntry>, j: nat)
    requires j < |entries| && entries[j].Complete()
    ensures LastAlias(entries, entries[j].targetKeyId.value).Some?
  {
    var n := |entries| - 1;
    if j < n && !(entries[n].Complete() && entries[n].targetKeyId == entries[j].targetKeyId) {
      assert entries[..n][j] == entries[j];
      LastAliasListed(entries[..n], j);
    }
  }

  /** When the listed alias names are distinct and fully qualified, the two maps
      built from scratch are inverse on every listed key id: dereferencing the
      alias found for a key gives the key back. */
  lemma DerefAliasFor(entries: seq<AliasEntry>, j: nat)
    requires DistinctAliases(entries)
    requires forall i :: 0 <= i < |entries| && entries[i].Complete() ==> HasPrefix(entries[i].aliasName.value, AliasPrefix)
    requires j < |entries| && entries[j].Complete()
    ensures var m := Record(Empty, entries);
            m.Deref(m.AliasFor(entries[j].targetKeyId.value)) == entries[j].targetKeyId.value
  {
    var k := entries[j].targetKeyId.value;
    var m := Record(Empty, entries);
    LastAliasListed(entries, j);
    LastAliasFound(entries, k);
    var i :| 0 <= i < |entries| && entries[i].Complete() && entries[i].targetKeyId == Some(k)
             && entries[i].aliasName == LastAlias(entries, k);
    var a := entries[i].aliasName.value;
    RecordLastWins(Empty, entries, a, k);
    assert m.AliasFor(k) == a;
    LastTargetOfDistinct(entries, i);
    assert Qualify(a) == a;
  }
}
