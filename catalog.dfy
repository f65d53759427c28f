/**
 * The two catalogs the device tab shows: code-signing identities from the
 * keychain and provisioning profiles from disk. Discovering them belongs to the
 * RoboVM compiler library, so here they are plain sequences handed in by the
 * caller.
 */
module Catalog {

  import opened Wrappers

  /** A code-signing identity: its display name and the fingerprint that is persisted. */
  datatype SigningIdentity = SigningIdentity(name: string, fingerprint: string)

  /**
   * A provisioning profile: its display name, the UUID that is persisted and the
   * application identifier read from its entitlements.
   */
  datatype ProvisioningProfile = ProvisioningProfile(name: string, uuid: string, appId: string)

  /**
   * `SigningIdentity.find` / `ProvisioningProfile.find`: looks a persisted key up
   * in a catalog. The matching rules belong to the library; `None` stands for
   * the IllegalArgumentException it throws when nothing matches. Nothing is
   * assumed about which element it returns.
   */
  type Finder<!T> = (seq<T>, string) -> Option<T>

  /** `List.indexOf`: the first position holding `x`, or -1 when there is none. */
  function IndexOf<T(==)>(s: seq<T>, x: T): (r: int)
    ensures -1 <= r < |s|
    ensures r == -1 <==> x !in s
    ensures r != -1 ==> s[r] == x && x !in s[..r]
  {
    if s == [] then -1
    else if s[0] == x then 0
    else
      var k := IndexOf(s[1..], x);
      if k == -1 then -1 else k + 1
  }
}
