/**
 * What the device tab's restore (`initializeFrom`) and save (`performApply`,
 * `setDefaults`) do to each other, on the model of the code as written.
 */
module DeviceTabProperties {

  import opened Wrappers
  import opened Catalog
  import opened LaunchConfig
  import opened IOSDeviceLaunchConfigurationTabGroup

  /** The profile combo shows, at the restored index, the label of the profile the lookup found. */
  lemma RestoredProfileLabel(items: seq<string>, profiles: seq<ProvisioningProfile>, read: Read,
                             find: Finder<ProvisioningProfile>)
    requires IsProfileDisplay(items, profiles)
    ensures var idx := RestoredIndex(profiles, read, find, SentinelsAsWritten);
      && idx < |items|
      && (idx == 0 ==> items[idx] == AutoProfileLabel)
      && (idx != 0 ==> items[idx] == ProfileLabel(FoundItem(profiles, read, find).value))
  {
    var idx := RestoredIndex(profiles, read, find, SentinelsAsWritten);
    if idx != 0 {
      assert items[(idx - 1) + 1] == ProfileLabel(profiles[idx - 1]);
    }
  }

  /**
   * The signing combo shows, at the restored index, NOT the identity the
   * lookup found: the first identity of the catalog comes back as "Skip
   * Signing", and the identity at position p >= 1 as the name of the one at
   * p - 1.
   */
  lemma RestoredSigningLabel(items: seq<string>, ids: seq<SigningIdentity>, read: Read,
                             find: Finder<SigningIdentity>)
    requires IsSigningDisplay(items, ids)
    ensures var idx := RestoredIndex(ids, read, find, SentinelsAsWritten);
      && idx < |items|
      && (idx == 0 ==> items[idx] == AutoSigningLabel)
      && (idx == 1 ==> items[idx] == SkipSigningLabel && FoundItem(ids, read, find) == Some(ids[0]))
      && (idx >= 2 ==> items[idx] == ids[idx - 2].name && FoundItem(ids, read, find) == Some(ids[idx - 1]))
  {
    var idx := RestoredIndex(ids, read, find, SentinelsAsWritten);
    if idx >= 2 {
      assert items[(idx - 2) + 2] == ids[idx - 2].name;
    }
  }

  /**
   * Profile round trip: whatever signing choice other than "Skip Signing" is
   * saved, saving the restored profile index writes back the UUID of the
   * profile the lookup found, or null when it found none.
   */
  lemma ProfileRoundTrip(attrs: Attributes, ids: seq<SigningIdentity>, profiles: seq<ProvisioningProfile>,
                         signingIndex: int, read: Read, find: Finder<ProvisioningProfile>)
    requires signingIndex == 0 || 2 <= signingIndex <= |ids|
    ensures var found := FoundItem(profiles, read, find);
      var r := ApplyAttributes(attrs, ids, profiles, signingIndex, RestoredIndex(profiles, read, find, SentinelsAsWritten));
      && r.outcome == Completed
      && GetString(r.attributes, ProvisioningProfileAttr)
         == Value(if found.Some? && found.value in profiles then Some(found.value.uuid) else None)
  {
  }

  /**
   * A persisted UUID that the lookup resolves to `profiles[p]` restores to the
   * index of its first copy (p + 1 when it has none earlier), and saving
   * writes the same UUID back.
   */
  lemma ProfileKeyRoundTrip(attrs: Attributes, config: Attributes, ids: seq<SigningIdentity>,
                            profiles: seq<ProvisioningProfile>, signingIndex: int, p: nat,
                            find: Finder<ProvisioningProfile>)
    requires p < |profiles|
    requires ProvisioningProfileAttr in config && config[ProvisioningProfileAttr] == StringValue(profiles[p].uuid)
    requires find(profiles, profiles[p].uuid) == Some(profiles[p])
    requires signingIndex == 0 || 2 <= signingIndex <= |ids|
    ensures var idx := RestoredIndex(profiles, GetString(config, ProvisioningProfileAttr), find, SentinelsAsWritten);
      var r := ApplyAttributes(attrs, ids, profiles, signingIndex, idx);
      && 1 <= idx <= p + 1
      && profiles[idx - 1] == profiles[p]
      && (profiles[p] !in profiles[..p] ==> idx == p + 1)
      && r.outcome == Completed
      && GetString(r.attributes, ProvisioningProfileAttr) == Value(Some(profiles[p].uuid))
  {
    var idx := RestoredIndex(profiles, GetString(config, ProvisioningProfileAttr), find, SentinelsAsWritten);
    assert FoundItem(profiles, GetString(config, ProvisioningProfileAttr), find) == Some(profiles[p]);
  }

  /**
   * Signing round trip as written: restoring then saving writes back the
   * fingerprint of the identity found, except for the first identity of the
   * catalog, which is restored onto "Skip Signing" and so saved as the skip
   * flag, leaving the persisted signing id and profile as they were.
   */
  lemma SigningRoundTrip(attrs: Attributes, ids: seq<SigningIdentity>, profiles: seq<ProvisioningProfile>,
                         profileIndex: int, read: Read, find: Finder<SigningIdentity>)
    requires ProfileIndexInRange(profiles, profileIndex)
    ensures var found := FoundItem(ids, read, find);
      var idx := RestoredIndex(ids, read, find, SentinelsAsWritten);
      var r := ApplyAttributes(attrs, ids, profiles, idx, profileIndex);
      && (idx == 1 <==> |ids| > 0 && found == Some(ids[0]))
      && (idx == 1 ==> r.attributes == attrs[SkipSigningAttr := BoolValue(true)])
      && (idx != 1 ==>
            && r.outcome == Completed
            && GetString(r.attributes, SigningIdAttr)
               == Value(if found.Some? && found.value in ids then Some(found.value.fingerprint) else None))
  {
    var idx := RestoredIndex(ids, read, find, SentinelsAsWritten);
    var found := FoundItem(ids, read, find);
    if found.Some? && |ids| > 0 && found.value == ids[0] {
      assert IndexOf(ids, ids[0]) == 0;
    }
  }

  /**
   * Choosing the signing entry labelled `ids[k].name` (combo index k + 2) and
   * saving persists the NEXT identity's fingerprint, and for the last
   * identity throws before anything is written.
   */
  lemma SigningChoiceSavesNextIdentity(attrs: Attributes, ids: seq<SigningIdentity>,
                                       profiles: seq<ProvisioningProfile>, items: seq<string>,
                                       k: nat, profileIndex: int)
    requires IsSigningDisplay(items, ids)
    requires k < |ids|
    requires ProfileIndexInRange(profiles, profileIndex)
    ensures items[k + 2] == ids[k].name
    ensures var r := ApplyAttributes(attrs, ids, profiles, k + 2, profileIndex);
      && (k + 1 < |ids| ==>
            r.outcome == Completed && GetString(r.attributes, SigningIdAttr) == Value(Some(ids[k + 1].fingerprint)))
      && (k + 1 == |ids| ==> r == Applied(Threw, attrs))
  {
  }

  /** The skip flag is never read back: restoring ignores it entirely. */
  lemma SkipFlagNotRestored(attrs: Attributes, skip: bool, ids: seq<SigningIdentity>, find: Finder<SigningIdentity>)
    ensures var withFlag := attrs[SkipSigningAttr := BoolValue(skip)];
      RestoredIndex(ids, GetString(withFlag, SigningIdAttr), find, SentinelsAsWritten)
      == RestoredIndex(ids, GetString(attrs, SigningIdAttr), find, SentinelsAsWritten)
  {
  }

  /**
   * After `setDefaults` the signing combo restores to "Auto" whatever the
   * catalog and lookup, the profile attribute reads as before, and applying
   * defaults twice is the same as once.
   */
  lemma DefaultsRestoreAutoSigning(attrs: Attributes, ids: seq<SigningIdentity>, find: Finder<SigningIdentity>)
    ensures RestoredIndex(ids, GetString(Defaults(attrs), SigningIdAttr), find, SentinelsAsWritten) == 0
    ensures GetString(Defaults(attrs), ProvisioningProfileAttr) == GetString(attrs, ProvisioningProfileAttr)
    ensures Defaults(Defaults(attrs)) == Defaults(attrs)
  {
    var d := Defaults(attrs);
    assert ProvisioningProfileAttr !in {SigningIdAttr, SkipSigningAttr};
    assert (ProvisioningProfileAttr in d) == (ProvisioningProfileAttr in d - {SigningIdAttr, SkipSigningAttr});
    assert (ProvisioningProfileAttr in attrs) == (ProvisioningProfileAttr in attrs - {SigningIdAttr, SkipSigningAttr});
  }
}
