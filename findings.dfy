/**
 * The device tab with the two slips of the code corrected, each next to a
 * concrete input that shows the code as written going wrong:
 *  - the signing combo has two sentinels, so restoring and saving must offset
 *    its indices by two, not one;
 *  - `setDefaults` clears the signing id twice where the second write was
 *    evidently meant for the provisioning profile.
 */
module CorrectedSelection {

  import opened Wrappers
  import opened Catalog
  import opened LaunchConfig
  import opened IOSDeviceLaunchConfigurationTabGroup

  /** Entries before the first identity in the signing combo. */
  const SigningSentinels: nat := 2

  /** `performApply` with the signing combo offset by its two sentinels. */
  function CorrectedApplyAttributes(attrs: Attributes, ids: seq<SigningIdentity>, profiles: seq<ProvisioningProfile>,
                                    signingIndex: int, profileIndex: int): (r: Applied)
    ensures r.attributes - DeviceAttrs == attrs - DeviceAttrs
    ensures signingIndex == 1 ==> r == Applied(Completed, attrs[SkipSigningAttr := BoolValue(true)])
    ensures signingIndex != 1 ==>
      (r.outcome == Completed <==>
         (signingIndex == 0 || 2 <= signingIndex < |ids| + 2) && ProfileIndexInRange(profiles, profileIndex))
    ensures signingIndex != 1 && r.outcome == Completed ==>
      GetString(r.attributes, SigningIdAttr) == Value(if signingIndex == 0 then None else Some(ids[signingIndex - 2].fingerprint))
  {
    if signingIndex == 1 then Applied(Completed, WithBool(attrs, SkipSigningAttr, true))
    else WriteSelection(attrs, SelectedItem(ids, signingIndex, SigningSentinels),
                        SelectedItem(profiles, profileIndex, SentinelsAsWritten))
  }

  /**
   * With the corrected offsets the signing combo round-trips: the restored
   * index never lands on "Skip Signing", it shows the name of the identity
   * the lookup found, and saving it writes that identity's fingerprint.
   */
  lemma CorrectedSigningRoundTrip(attrs: Attributes, ids: seq<SigningIdentity>, profiles: seq<ProvisioningProfile>,
                                  items: seq<string>, profileIndex: int, read: Read, find: Finder<SigningIdentity>)
    requires IsSigningDisplay(items, ids)
    requires ProfileIndexInRange(profiles, profileIndex)
    ensures var found := FoundItem(ids, read, find);
      var idx := RestoredIndex(ids, read, find, SigningSentinels);
      var r := CorrectedApplyAttributes(attrs, ids, profiles, idx, profileIndex);
      && idx != 1 && idx < |items|
      && (idx != 0 ==> items[idx] == found.value.name)
      && r.outcome == Completed
      && GetString(r.attributes, SigningIdAttr)
         == Value(if found.Some? && found.value in ids then Some(found.value.fingerprint) else None)
  {
    var idx := RestoredIndex(ids, read, find, SigningSentinels);
    if idx != 0 {
      assert items[(idx - 2) + 2] == ids[idx - 2].name;
    }
  }

  /** With the corrected offset, every identity entry saves the identity it is labelled with. */
  lemma CorrectedSigningChoice(attrs: Attributes, ids: seq<SigningIdentity>, profiles: seq<ProvisioningProfile>,
                               items: seq<string>, k: nat, profileIndex: int)
    requires IsSigningDisplay(items, ids)
    requires k < |ids|
    requires ProfileIndexInRange(profiles, profileIndex)
    ensures items[k + 2] == ids[k].name
    ensures var r := CorrectedApplyAttributes(attrs, ids, profiles, k + 2, profileIndex);
      r.outcome == Completed && GetString(r.attributes, SigningIdAttr) == Value(Some(ids[k].fingerprint))
  {
  }

  /** Looks an identity up by exact fingerprint, as a stand-in for `SigningIdentity.find`. */
  function ByFingerprint(ids: seq<SigningIdentity>, key: string): (r: Option<SigningIdentity>)
    ensures r.Some? ==> r.value in ids && r.value.fingerprint == key
    ensures r.None? ==> forall i :: 0 <= i < |ids| ==> ids[i].fingerprint != key
  {
    if ids == [] then None
    else if ids[0].fingerprint == key then Some(ids[0])
    else ByFingerprint(ids[1..], key)
  }

  /**
   * The catalog [Dev A (AA11), Dev B (BB22)], shown as
   * [Auto, Skip Signing, Dev A, Dev B]. As written: a persisted "BB22"
   * restores to index 2, labelled "Dev A"; a persisted "AA11" restores onto
   * "Skip Signing"; choosing "Dev A" saves "BB22" and choosing "Dev B" throws.
   * Corrected: "BB22" restores to index 3 and choosing "Dev A" saves "AA11".
   */
  lemma SigningOffByOneWitness(attrs: Attributes)
    ensures var ids := [SigningIdentity("Dev A", "AA11"), SigningIdentity("Dev B", "BB22")];
      var find: Finder<SigningIdentity> := ByFingerprint;
      && RestoredIndex(ids, Value(Some("BB22")), find, SentinelsAsWritten) == 2
      && RestoredIndex(ids, Value(Some("AA11")), find, SentinelsAsWritten) == 1
      && GetString(ApplyAttributes(attrs, ids, [], 2, 0).attributes, SigningIdAttr) == Value(Some("BB22"))
      && ApplyAttributes(attrs, ids, [], 3, 0).outcome == Threw
      && RestoredIndex(ids, Value(Some("BB22")), find, SigningSentinels) == 3
      && GetString(CorrectedApplyAttributes(attrs, ids, [], 2, 0).attributes, SigningIdAttr) == Value(Some("AA11"))
  {
    var ids := [SigningIdentity("Dev A", "AA11"), SigningIdentity("Dev B", "BB22")];
    assert ByFingerprint(ids, "BB22") == Some(ids[1]);
    assert ByFingerprint(ids, "AA11") == Some(ids[0]);
    assert IndexOf(ids, ids[1]) == 1;
    assert IndexOf(ids, ids[0]) == 0;
  }

  /** `setDefaults` as evidently intended: all three device attributes reset. */
  function CorrectedDefaults(attrs: Attributes): (r: Attributes)
    ensures GetString(r, SigningIdAttr) == Value(None)
    ensures GetString(r, ProvisioningProfileAttr) == Value(None)
    ensures SkipSigningAttr in r && r[SkipSigningAttr] == BoolValue(false)
    ensures r - DeviceAttrs == attrs - DeviceAttrs
  {
    WithBool(WithString(WithString(attrs, SigningIdAttr, None), ProvisioningProfileAttr, None), SkipSigningAttr, false)
  }

  /** After the corrected defaults both combos restore to "Auto", whatever the catalogs and lookups. */
  lemma CorrectedDefaultsRestoreAuto(attrs: Attributes, ids: seq<SigningIdentity>, profiles: seq<ProvisioningProfile>,
                                     findIdentity: Finder<SigningIdentity>, findProfile: Finder<ProvisioningProfile>)
    ensures RestoredIndex(ids, GetString(CorrectedDefaults(attrs), SigningIdAttr), findIdentity, SigningSentinels) == 0
    ensures RestoredIndex(profiles, GetString(CorrectedDefaults(attrs), ProvisioningProfileAttr), findProfile, SentinelsAsWritten) == 0
  {
  }

  /**
   * As written, a profile chosen before "reset to defaults" survives it: the
   * persisted UUID "U1" of the only profile still restores to index 1.
   */
  lemma DefaultsKeepProfileWitness(attrs: Attributes)
    requires ProvisioningProfileAttr in attrs && attrs[ProvisioningProfileAttr] == StringValue("U1")
    ensures var profiles := [ProvisioningProfile("MyApp", "U1", "TEAM.com.app")];
      var find: Finder<ProvisioningProfile> := (ps: seq<ProvisioningProfile>, key: string) =>
        if |ps| > 0 && ps[0].uuid == key then Some(ps[0]) else None;
      RestoredIndex(profiles, GetString(Defaults(attrs), ProvisioningProfileAttr), find, SentinelsAsWritten) == 1
  {
    var d := Defaults(attrs);
    assert ProvisioningProfileAttr !in {SigningIdAttr, SkipSigningAttr};
    assert ProvisioningProfileAttr in d - {SigningIdAttr, SkipSigningAttr};
    assert (d - {SigningIdAttr, SkipSigningAttr})[ProvisioningProfileAttr] == StringValue("U1");
  }
}
