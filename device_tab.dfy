/**
 * The device tab of the iOS-device launch configuration dialog: two read-only
 * combos, one for the signing identity and one for the provisioning profile,
 * restored from and saved to a launch configuration.
 *
 * The signing combo shows two sentinel entries ("Auto ...", "Skip Signing")
 * before the identities; the profile combo shows one ("Auto") before the
 * profiles. Restoring and saving both offset combo indices by one, on both
 * combos: `RestoredIndex` and `SelectedItem` take that offset as `sentinels`,
 * and the tab passes 1 to both, as the code does.
 */
module IOSDeviceLaunchConfigurationTabGroup {

  import opened Wrappers
  import opened Catalog
  import opened LaunchConfig

  const AutoSigningLabel: string := "Auto (starts with 'iPhone Developer')"
  const SkipSigningLabel: string := "Skip Signing"
  const AutoProfileLabel: string := "Auto"

  /** Offset the code uses, on both combos, between a catalog position and a combo index. */
  const SentinelsAsWritten: nat := 1

  /** The label of a profile in its combo: name, then the application identifier in parentheses. */
  function ProfileLabel(p: ProvisioningProfile): string
  {
    p.name + " (" + p.appId + ")"
  }

  /** `labels` is the signing combo's item list for the catalog `ids`. */
  ghost predicate IsSigningDisplay(labels: seq<string>, ids: seq<SigningIdentity>)
  {
    && |labels| == |ids| + 2
    && labels[0] == AutoSigningLabel
    && labels[1] == SkipSigningLabel
    && forall k :: 0 <= k < |ids| ==> labels[k + 2] == ids[k].name
  }

  /** `labels` is the profile combo's item list for the catalog `profiles`. */
  ghost predicate IsProfileDisplay(labels: seq<string>, profiles: seq<ProvisioningProfile>)
  {
    && |labels| == |profiles| + 1
    && labels[0] == AutoProfileLabel
    && forall k :: 0 <= k < |profiles| ==> labels[k + 1] == ProfileLabel(profiles[k])
  }

  /**
   * What the lookup of a persisted key yields: nothing when the read failed,
   * when the attribute is absent or when `find` threw.
   */
  function FoundItem<T>(catalog: seq<T>, read: Read, find: Finder<T>): Option<T>
  {
    match read
    case CoreException => None
    case Value(None) => None
    case Value(Some(v)) => find(catalog, v)
  }

  /**
   * The combo index `initializeFrom` leaves selected: 0 unless the lookup
   * found an element of the catalog, and otherwise that element's first
   * position plus `sentinels`.
   */
  function RestoredIndex<T(==)>(catalog: seq<T>, read: Read, find: Finder<T>, sentinels: nat): (idx: nat)
    requires sentinels >= 1
    ensures idx == 0 || sentinels <= idx < |catalog| + sentinels
    ensures idx == 0 <==> FoundItem(catalog, read, find).None? || FoundItem(catalog, read, find).value !in catalog
    ensures idx != 0 ==>
      && catalog[idx - sentinels] == FoundItem(catalog, read, find).value
      && FoundItem(catalog, read, find).value !in catalog[..idx - sentinels]
  {
    var i := match FoundItem(catalog, read, find)
      case None => -1
      case Some(x) => IndexOf(catalog, x);
    if i != -1 then i + sentinels else 0
  }

  /**
   * What a combo index designates when saving: index 0 is the "Auto" sentinel
   * (null); any other index is looked up with `List.get(index - sentinels)`,
   * which throws IndexOutOfBoundsException outside the catalog.
   */
  datatype Selected<T> = Sentinel | Item(item: T) | OutOfBounds

  function SelectedItem<T>(catalog: seq<T>, index: int, sentinels: nat): (r: Selected<T>)
    requires sentinels >= 1
    ensures r.Sentinel? <==> index == 0
    ensures r.Item? <==> sentinels <= index < |catalog| + sentinels
    ensures r.Item? ==> r.item == catalog[index - sentinels]
  {
    if index == 0 then Sentinel
    else if sentinels <= index < |catalog| + sentinels then Item(catalog[index - sentinels])
    else OutOfBounds
  }

  /** A profile-combo index that `performApply` can look up without throwing: "Auto" or a profile. */
  predicate ProfileIndexInRange(profiles: seq<ProvisioningProfile>, profileIndex: int)
  {
    profileIndex == 0 || 1 <= profileIndex <= |profiles|
  }

  /** How `performApply` ends: normally, or with a runtime exception from `List.get`. */
  datatype ApplyOutcome = Completed | Threw

  datatype Applied = Applied(outcome: ApplyOutcome, attributes: Attributes)

  /**
   * Saving a concrete signing choice (not "Skip Signing"): write the identity's
   * fingerprint (null for Auto), then look up the profile, write its UUID (null
   * for Auto) and clear the skip flag. An out-of-bounds lookup throws at the
   * point where it happens; what was written before stays written: nothing
   * when the identity lookup throws, the signing id alone when the profile
   * lookup throws.
   */
  function WriteSelection(attrs: Attributes, identity: Selected<SigningIdentity>,
                          profile: Selected<ProvisioningProfile>): (r: Applied)
    ensures r.attributes - DeviceAttrs == attrs - DeviceAttrs
    ensures r.outcome == Completed <==> !identity.OutOfBounds? && !profile.OutOfBounds?
    ensures identity.OutOfBounds? ==> r.attributes == attrs
    ensures !identity.OutOfBounds? && profile.OutOfBounds? ==>
      && GetString(r.attributes, SigningIdAttr) == Value(if identity.Item? then Some(identity.item.fingerprint) else None)
      && r.attributes - {SigningIdAttr} == attrs - {SigningIdAttr}
    ensures r.outcome == Completed ==>
      && GetString(r.attributes, SigningIdAttr) == Value(if identity.Item? then Some(identity.item.fingerprint) else None)
      && GetString(r.attributes, ProvisioningProfileAttr) == Value(if profile.Item? then Some(profile.item.uuid) else None)
      && SkipSigningAttr in r.attributes && r.attributes[SkipSigningAttr] == BoolValue(false)
  {
    if identity.OutOfBounds? then Applied(Threw, attrs)
    else
      var a1 := WithString(attrs, SigningIdAttr, Fingerprint(identity));
      if profile.OutOfBounds? then Applied(Threw, a1)
      else
        var a2 := WithString(a1, ProvisioningProfileAttr, Uuid(profile));
        Applied(Completed, WithBool(a2, SkipSigningAttr, false))
  }

  /** The selected identity's fingerprint, or none for the "Auto" sentinel. */
  function Fingerprint(identity: Selected<SigningIdentity>): Option<string>
  {
    match identity
    case Item(sid) => Some(sid.fingerprint)
    case _ => None
  }

  /** The selected profile's UUID, or none for the "Auto" sentinel. */
  function Uuid(profile: Selected<ProvisioningProfile>): Option<string>
  {
    match profile
    case Item(p) => Some(p.uuid)
    case _ => None
  }

  /**
   * `performApply` on the attribute map: index 1 of the signing combo sets
   * only the skip flag; any other index saves both selections with offset
   * `SentinelsAsWritten` on both combos.
   */
  function ApplyAttributes(attrs: Attributes, ids: seq<SigningIdentity>, profiles: seq<ProvisioningProfile>,
                           signingIndex: int, profileIndex: int): (r: Applied)
    ensures r.attributes - DeviceAttrs == attrs - DeviceAttrs
    ensures signingIndex == 1 ==> r == Applied(Completed, attrs[SkipSigningAttr := BoolValue(true)])
    ensures signingIndex != 1 ==>
      (r.outcome == Completed <==>
         (signingIndex == 0 || 1 <= signingIndex <= |ids|) && ProfileIndexInRange(profiles, profileIndex))
    ensures signingIndex != 1 && signingIndex != 0 && !(1 <= signingIndex <= |ids|) ==> r == Applied(Threw, attrs)
    ensures signingIndex != 1 && r.outcome == Completed ==>
      && GetString(r.attributes, SigningIdAttr) == Value(if signingIndex == 0 then None else Some(ids[signingIndex - 1].fingerprint))
      && GetString(r.attributes, ProvisioningProfileAttr) == Value(if profileIndex == 0 then None else Some(profiles[profileIndex - 1].uuid))
      && SkipSigningAttr in r.attributes && r.attributes[SkipSigningAttr] == BoolValue(false)
  {
    if signingIndex == 1 then Applied(Completed, WithBool(attrs, SkipSigningAttr, true))
    else WriteSelection(attrs, SelectedItem(ids, signingIndex, SentinelsAsWritten),
                        SelectedItem(profiles, profileIndex, SentinelsAsWritten))
  }

  /**
   * `setDefaults` on the attribute map: the signing id is cleared (twice, as
   * written) and the skip flag set to false; the profile attribute is left as
   * it was.
   */
  function Defaults(attrs: Attributes): (r: Attributes)
    ensures GetString(r, SigningIdAttr) == Value(None)
    ensures SkipSigningAttr in r && r[SkipSigningAttr] == BoolValue(false)
    ensures r - {SigningIdAttr, SkipSigningAttr} == attrs - {SigningIdAttr, SkipSigningAttr}
  {
    WithBool(WithString(WithString(attrs, SigningIdAttr, None), SigningIdAttr, None), SkipSigningAttr, false)
  }

  /**
   * One `try` block of `initializeFrom`: the catalog position of the element
   * `find` returns for the persisted key, or -1 when the read failed (the
   * CoreException is logged), the key is absent, `find` threw, or the element
   * is not in the catalog.
   */
  method LookUpIndex<T(==)>(catalog: seq<T>, read: Read, find: Finder<T>) returns (idx: int)
    ensures idx == -1 ==> RestoredIndex(catalog, read, find, SentinelsAsWritten) == 0
    ensures idx != -1 ==> RestoredIndex(catalog, read, find, SentinelsAsWritten) == idx + 1
  {
    idx := -1;
    if read.Value? && read.value.Some? {
      var found := find(catalog, read.value.value);
      if found.Some? {
        idx := IndexOf(catalog, found.value);
      }
    }
  }

  /**
   * The tab's state: the catalog snapshots taken by `initializeFrom`, each
   * combo's items and selection index (-1: nothing selected, as in an empty
   * SWT combo), and whether the profile combo is enabled.
   */
  class DeviceTab {

    var signingIdentities: seq<SigningIdentity>
    var provisioningProfiles: seq<ProvisioningProfile>
    var signingItems: seq<string>
    var signingIndex: int
    var profileItems: seq<string>
    var profileIndex: int
    var profileEnabled: bool

    /** A combo's selection is -1 or one of its items; filled combos show the catalog snapshots. */
    ghost predicate Valid()
      reads this
    {
      && -1 <= signingIndex < |signingItems|
      && -1 <= profileIndex < |profileItems|
      && (signingItems != [] ==> IsSigningDisplay(signingItems, signingIdentities))
      && (profileItems != [] ==> IsProfileDisplay(profileItems, provisioningProfiles))
    }

    /** The tab as `createControl` leaves it: empty combos, nothing selected, profile combo enabled. */
    constructor ()
      ensures Valid()
      ensures signingIdentities == [] && provisioningProfiles == []
      ensures signingItems == [] && profileItems == []
      ensures signingIndex == -1 && profileIndex == -1 && profileEnabled
    {
      signingIdentities, provisioningProfiles := [], [];
      signingItems, profileItems := [], [];
      signingIndex, profileIndex := -1, -1;
      profileEnabled := true;
    }

    /** `readSigningIdentities`: the two sentinels, then every identity's name in catalog order. */
    method ReadSigningIdentities() returns (labels: seq<string>)
      ensures |labels| == |signingIdentities| + 2
      ensures labels[0] == AutoSigningLabel && labels[1] == SkipSigningLabel
      ensures forall k :: 0 <= k < |signingIdentities| ==> labels[k + 2] == signingIdentities[k].name
    {
      var result := new string[|signingIdentities| + 2];
      var i := 0;
      result[i] := AutoSigningLabel;
      i := i + 1;
      result[i] := SkipSigningLabel;
      i := i + 1;
      var j := 0;
      while j < |signingIdentities|
        invariant 0 <= j <= |signingIdentities| && i == j + 2
        invariant result[0] == AutoSigningLabel && result[1] == SkipSigningLabel
        invariant forall k :: 0 <= k < j ==> result[k + 2] == signingIdentities[k].name
      {
        result[i] := signingIdentities[j].name;
        i := i + 1;
        j := j + 1;
      }
      labels := result[..];
    }

    /** `readProvisioningProfiles`: the "Auto" sentinel, then every profile's label in catalog order. */
    method ReadProvisioningProfiles() returns (labels: seq<string>)
      ensures |labels| == |provisioningProfiles| + 1
      ensures labels[0] == AutoProfileLabel
      ensures forall k :: 0 <= k < |provisioningProfiles| ==> labels[k + 1] == ProfileLabel(provisioningProfiles[k])
    {
      var result := new string[|provisioningProfiles| + 1];
      var i := 0;
      result[i] := AutoProfileLabel;
      i := i + 1;
      var j := 0;
      while j < |provisioningProfiles|
        invariant 0 <= j <= |provisioningProfiles| && i == j + 1
        invariant result[0] == AutoProfileLabel
        invariant forall k :: 0 <= k < j ==> result[k + 1] == ProfileLabel(provisioningProfiles[k])
      {
        var p := provisioningProfiles[j];
        result[i] := p.name + " (" + p.appId + ")";
        i := i + 1;
        j := j + 1;
      }
      labels := result[..];
    }

    /**
     * `initializeFrom`: take fresh catalog snapshots, fill both combos and
     * select index 0, then for each combo read the persisted key, look it up
     * and, when found, select its catalog position plus one. The skip flag is
     * not read. `select` fires no selection listener, so the profile combo's
     * enabled state is left as it was.
     */
    method InitializeFrom(config: LaunchConfiguration, identities: seq<SigningIdentity>,
                          profiles: seq<ProvisioningProfile>,
                          findIdentity: Finder<SigningIdentity>, findProfile: Finder<ProvisioningProfile>)
      modifies this
      ensures Valid()
      ensures signingIdentities == identities && provisioningProfiles == profiles
      ensures IsSigningDisplay(signingItems, identities) && IsProfileDisplay(profileItems, profiles)
      ensures signingIndex == RestoredIndex(identities, GetString(config.attributes, SigningIdAttr), findIdentity, SentinelsAsWritten)
      ensures profileIndex == RestoredIndex(profiles, GetString(config.attributes, ProvisioningProfileAttr), findProfile, SentinelsAsWritten)
      ensures profileEnabled == old(profileEnabled)
    {
      signingIdentities := identities;
      provisioningProfiles := profiles;
      signingItems := ReadSigningIdentities();
      signingIndex := 0;
      profileItems := ReadProvisioningProfiles();
      profileIndex := 0;

      var idx := LookUpIndex(signingIdentities, GetString(config.attributes, SigningIdAttr), findIdentity);
      if idx != -1 {
        signingIndex := idx + 1;
      }
      idx := LookUpIndex(provisioningProfiles, GetString(config.attributes, ProvisioningProfileAttr), findProfile);
      if idx != -1 {
        profileIndex := idx + 1;
      }
    }

    /**
     * `performApply`: signing index 1 ("Skip Signing") sets only the skip flag;
     * any other index writes the identity at `index - 1`, the profile at
     * `profileIndex - 1` (null for index 0) and clears the skip flag.
     */
    method PerformApply(wc: LaunchConfiguration) returns (outcome: ApplyOutcome)
      modifies wc
      ensures Applied(outcome, wc.attributes)
           == ApplyAttributes(old(wc.attributes), signingIdentities, provisioningProfiles, signingIndex, profileIndex)
    {
      if signingIndex == 1 {
        wc.SetBool(SkipSigningAttr, true);
        outcome := Completed;
        return;
      }
      var signingId: Option<SigningIdentity> := None;
      if signingIndex != 0 {
        if !(0 <= signingIndex - 1 < |signingIdentities|) {
          outcome := Threw;
          return;
        }
        signingId := Some(signingIdentities[signingIndex - 1]);
      }
      wc.SetString(SigningIdAttr, if signingId.Some? then Some(signingId.value.fingerprint) else None);
      var profile: Option<ProvisioningProfile> := None;
      if profileIndex != 0 {
        if !(0 <= profileIndex - 1 < |provisioningProfiles|) {
          outcome := Threw;
          return;
        }
        profile := Some(provisioningProfiles[profileIndex - 1]);
      }
      wc.SetString(ProvisioningProfileAttr, if profile.Some? then Some(profile.value.uuid) else None);
      wc.SetBool(SkipSigningAttr, false);
      outcome := Completed;
    }

    /** `setDefaults`: clears the signing id (twice) and sets the skip flag to false. */
    method SetDefaults(wc: LaunchConfiguration)
      modifies wc
      ensures wc.attributes == Defaults(old(wc.attributes))
    {
      wc.SetString(SigningIdAttr, None);
      wc.SetString(SigningIdAttr, None);
      wc.SetBool(SkipSigningAttr, false);
    }

    /**
     * The user picks item `index` of the signing combo; its selection listener
     * disables the profile combo exactly when "Skip Signing" (index 1) is chosen.
     */
    method SigningSelected(index: int)
      requires Valid()
      requires 0 <= index < |signingItems|
      modifies this`signingIndex, this`profileEnabled
      ensures Valid()
      ensures signingIndex == index
      ensures profileEnabled <==> index != 1
    {
      signingIndex := index;
      if signingIndex == 1 {
        profileEnabled := false;
      } else {
        profileEnabled := true;
      }
    }

    /** The user picks item `index` of the profile combo; its listener changes nothing else. */
    method ProfileSelected(index: int)
      requires Valid()
      requires 0 <= index < |profileItems|
      modifies this`profileIndex
      ensures Valid()
      ensures profileIndex == index
    {
      profileIndex := index;
    }
  }
}
