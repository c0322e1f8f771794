/** The list of session-storage keys the page tracks for clearing: the fixed
    collection keys, and one `member_<name>` key per team member whose detail
    record has been requested (`addMemberCacheKey`). */
module CacheKeys {

  /** The fixed cache key of each entity collection. */
  const BaseCacheKeys: seq<string> :=
    ["company_profile", "team_members", "initiatives", "testimonials", "products", "services", "innovators"]

  /** The cache key of one team member's detail record, from the already
      URL-encoded member name. */
  function MemberCacheKey(encodedName: string): string {
    "member_" + encodedName
  }

  ghost predicate NoDuplicates(keys: seq<string>) {
    forall i, j :: 0 <= i < j < |keys| ==> keys[i] != keys[j]
  }

  /** Appends the member's key unless the list already holds it. */
  function AddMemberCacheKey(keys: seq<string>, encodedName: string): (r: seq<string>)
    ensures MemberCacheKey(encodedName) in r
    ensures forall k :: k in r <==> k in keys || k == MemberCacheKey(encodedName)
    ensures |keys| <= |r| && r[..|keys|] == keys
    ensures |r| == if MemberCacheKey(encodedName) in keys then |keys| else |keys| + 1
    ensures NoDuplicates(keys) ==> NoDuplicates(r)
  {
    var key := MemberCacheKey(encodedName);
    if key in keys then keys else keys + [key]
  }

  /** Registering the same member twice is the same as registering it once. */
  lemma AddMemberCacheKeyIdempotent(keys: seq<string>, encodedName: string)
    ensures AddMemberCacheKey(AddMemberCacheKey(keys, encodedName), encodedName)
         == AddMemberCacheKey(keys, encodedName)
  {
  }

  /** A member's detail key never names a collection's entry: clearing or
      overwriting one cannot touch the other. */
  lemma MemberKeysNeverCollide(encodedName: string)
    ensures MemberCacheKey(encodedName) !in BaseCacheKeys
  {
    var key := MemberCacheKey(encodedName);
    assert key[0] == 'm';
    assert forall i :: 0 <= i < |BaseCacheKeys| ==> BaseCacheKeys[i][0] != 'm';
  }

  /** The key list after the members of a session were registered in turn. */
  function RegisterAll(keys: seq<string>, names: seq<string>): seq<string>
    decreases |names|
  {
    if names == [] then keys
    else RegisterAll(AddMemberCacheKey(keys, names[0]), names[1..])
  }

  /** However many members are registered in turn: the earlier keys stay in
      front in their order, every member's key is present, and a list without
      duplicates stays without duplicates. */
  lemma {:induction false} RegisteredKeysStayDistinct(keys: seq<string>, names: seq<string>)
    requires NoDuplicates(keys)
    ensures var r := RegisterAll(keys, names);
      && NoDuplicates(r)
      && |keys| <= |r| && r[..|keys|] == keys
      && forall n :: n in names ==> MemberCacheKey(n) in r
    decreases |names|
  {
    if names != [] {
      var next := AddMemberCacheKey(keys, names[0]);
      RegisteredKeysStayDistinct(next, names[1..]);
      var r := RegisterAll(next, names[1..]);
      assert r[..|keys|] == r[..|next|][..|keys|];
      forall n | n in names
        ensures MemberCacheKey(n) in r
      {
        if n != names[0] {
          assert n in names[1..];
        } else {
          assert MemberCacheKey(n) in next;
          assert next == r[..|next|];
          var i :| 0 <= i < |next| && next[i] == MemberCacheKey(n);
          assert r[i] == MemberCacheKey(n);
        }
      }
    }
  }

  /** The collection keys are distinct, so a session's registrations start
      from a list without duplicates. */
  lemma BaseCacheKeysDistinct()
    ensures NoDuplicates(BaseCacheKeys)
  {
  }

  /** The session's key list: the seven collection keys first, then one key
      per registered member, each listed once, none equal to a collection
      key. */
  lemma SessionKeyList(names: seq<string>)
    ensures var r := RegisterAll(BaseCacheKeys, names);
      && NoDuplicates(r)
      && |BaseCacheKeys| <= |r| && r[..|BaseCacheKeys|] == BaseCacheKeys
      && (forall n :: n in names ==> MemberCacheKey(n) in r && MemberCacheKey(n) !in BaseCacheKeys)
  {
    BaseCacheKeysDistinct();
    RegisteredKeysStayDistinct(BaseCacheKeys, names);
    forall n | n in names
      ensures MemberCacheKey(n) !in BaseCacheKeys
    {
      MemberKeysNeverCollide(n);
    }
  }
}
