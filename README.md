# RoboVM Eclipse plugin: iOS device launch tab, selection bookkeeping

This project models the selection bookkeeping of `DeviceTab`, the tab of the
RoboVM "iOS Device" launch configuration dialog in which the user picks a
code-signing identity and a provisioning profile.

The tab keeps a snapshot of the signing-identity catalog and of the
provisioning-profile catalog and two read-only combos:

- the signing combo shows "Auto (starts with 'iPhone Developer')", "Skip Signing", then every identity's name;
- the profile combo shows "Auto", then `name (application-identifier)` for every profile.

`initializeFrom` restores each combo from a persisted key (the identity's
fingerprint, the profile's UUID). `performApply` writes the selection back as
three launch-configuration attributes: signing id, provisioning profile and
skip-signing flag. `setDefaults` resets them. Choosing "Skip Signing"
disables the profile combo.

The model follows the code as written. Both combos offset a catalog position
by one when restoring (`idx + 1`) and saving (`index - 1`), although the
signing combo has two sentinels. `RestoredIndex` and `SelectedItem` take that
offset as a parameter (`sentinels`); the tab passes `SentinelsAsWritten` (1)
for both combos. The consequences are proved as lemmas in
`DeviceTabProperties`, and the corrected tab is in `CorrectedSelection`
(see "## Findings").

Files:

- `wrappers.dfy`: `Option`, used for Java's nullable references.
- `catalog.dfy`: the identity and profile records, the abstract lookup `Finder`, and `IndexOf`.
- `launch_config.dfy`: the attribute map of a launch configuration, with its string/boolean getters and setters. Also the `LaunchConfiguration` class that is updated in place.
- `device_tab.dfy`: the `DeviceTab` class and the functions that specify its methods.
- `device_tab_properties.dfy`: how restore, save and reset relate.
- `findings.dfy`: the corrected signing offset and defaults, with concrete witnesses.

Behaviour of the code worth knowing:

- Restoring never reads the skip-signing attribute. A configuration saved with "Skip Signing" comes back as whatever its signing id restores to (`SkipFlagNotRestored`).
- A found identity at catalog position `p` restores to combo index `p + 1`, one entry before its label at `p + 2` (`RestoredSigningLabel`).
- `setDefaults` writes the signing-id attribute twice and leaves the provisioning-profile attribute as it was (`DefaultsRestoreAutoSigning`).
- An index outside the catalog makes `List.get` in `performApply` throw a runtime exception; the model represents this as the outcome `Threw`, with the attributes as written up to that point.

## Model

| member | source | states |
|---|---|---|
| `Catalog.IndexOf` | ui/src/org/robovm/eclipse/internal/IOSDeviceLaunchConfigurationTabGroup.java:160 | `List.indexOf`: -1 exactly when the element is absent, otherwise a position holding it with no earlier copy |
| `LaunchConfig.GetString` | ui/src/org/robovm/eclipse/internal/IOSDeviceLaunchConfigurationTabGroup.java:155 | `getAttribute(name, null)`: null exactly when absent, CoreException exactly when the stored value is a boolean, otherwise the stored string |
| `LaunchConfig.WithString` | ui/src/org/robovm/eclipse/internal/IOSDeviceLaunchConfigurationTabGroup.java:200-201 | setting a string attribute reads back as the value written (null included) and leaves every other attribute alone |
| `LaunchConfig.WithBool` | ui/src/org/robovm/eclipse/internal/IOSDeviceLaunchConfigurationTabGroup.java:196-197 | setting a boolean attribute stores it, makes a string read of it fail, and leaves every other attribute alone |
| `LaunchConfig.LaunchConfiguration.SetString` | ui/src/org/robovm/eclipse/internal/IOSDeviceLaunchConfigurationTabGroup.java:204-205 | the working copy's new attributes are the old ones with the string set (null removes it) |
| `LaunchConfig.LaunchConfiguration.SetBool` | ui/src/org/robovm/eclipse/internal/IOSDeviceLaunchConfigurationTabGroup.java:206-207 | the working copy's new attributes are the old ones with the flag set |
| `IOSDeviceLaunchConfigurationTabGroup.RestoredIndex` | ui/src/org/robovm/eclipse/internal/IOSDeviceLaunchConfigurationTabGroup.java:150-187 | the restored index is 0 exactly when the read failed, the key is absent, the lookup threw or returned a non-member; otherwise it is the found element's first position plus the offset |
| `IOSDeviceLaunchConfigurationTabGroup.LookUpIndex` | ui/src/org/robovm/eclipse/internal/IOSDeviceLaunchConfigurationTabGroup.java:154-164 | one `try` block of `initializeFrom`: -1 when `RestoredIndex` is 0, otherwise the position whose successor `RestoredIndex` selects |
| `IOSDeviceLaunchConfigurationTabGroup.SelectedItem` | ui/src/org/robovm/eclipse/internal/IOSDeviceLaunchConfigurationTabGroup.java:199 | index 0 is the null sentinel, an index within the catalog (after the offset) designates that element, any other index is an out-of-bounds `get` |
| `IOSDeviceLaunchConfigurationTabGroup.WriteSelection` | ui/src/org/robovm/eclipse/internal/IOSDeviceLaunchConfigurationTabGroup.java:198-208 | completes exactly when neither lookup is out of bounds; then signing id reads as the fingerprint or null, profile as the UUID or null, skip is false; nothing is written when the identity lookup throws, only the signing id when the profile lookup throws; no other attribute changes |
| `IOSDeviceLaunchConfigurationTabGroup.ApplyAttributes` | ui/src/org/robovm/eclipse/internal/IOSDeviceLaunchConfigurationTabGroup.java:195-208 | signing index 1 sets only the skip flag; otherwise it completes exactly when both indices are 0 or within `1..|catalog|`, then writes `ids[i-1].fingerprint`, `profiles[j-1].uuid` (null for 0) and skip false; a bad signing index writes nothing |
| `IOSDeviceLaunchConfigurationTabGroup.Defaults` | ui/src/org/robovm/eclipse/internal/IOSDeviceLaunchConfigurationTabGroup.java:214-216 | signing id reads as null, skip is false, and every other attribute, the profile included, is unchanged |
| `IOSDeviceLaunchConfigurationTabGroup.DeviceTab.constructor` | ui/src/org/robovm/eclipse/internal/IOSDeviceLaunchConfigurationTabGroup.java:65-66 | a new tab has empty catalogs and combos, no selection, and an enabled profile combo |
| `IOSDeviceLaunchConfigurationTabGroup.DeviceTab.ReadSigningIdentities` | ui/src/org/robovm/eclipse/internal/IOSDeviceLaunchConfigurationTabGroup.java:68-77 | `|identities| + 2` labels: the Auto label, "Skip Signing", then `identities[k].name` at `k + 2` |
| `IOSDeviceLaunchConfigurationTabGroup.DeviceTab.ReadProvisioningProfiles` | ui/src/org/robovm/eclipse/internal/IOSDeviceLaunchConfigurationTabGroup.java:79-88 | `|profiles| + 1` labels: "Auto", then `name + " (" + appId + ")"` of `profiles[k]` at `k + 1`, in catalog order |
| `IOSDeviceLaunchConfigurationTabGroup.DeviceTab.InitializeFrom` | ui/src/org/robovm/eclipse/internal/IOSDeviceLaunchConfigurationTabGroup.java:144-188 | the new snapshots are the given catalogs, the combos hold their display lists, each selection is `RestoredIndex` with offset 1, and the profile combo's enabled state is unchanged |
| `IOSDeviceLaunchConfigurationTabGroup.DeviceTab.PerformApply` | ui/src/org/robovm/eclipse/internal/IOSDeviceLaunchConfigurationTabGroup.java:191-209 | the outcome and the working copy's new attributes are `ApplyAttributes` of the old attributes, the snapshots and the two selections |
| `IOSDeviceLaunchConfigurationTabGroup.DeviceTab.SetDefaults` | ui/src/org/robovm/eclipse/internal/IOSDeviceLaunchConfigurationTabGroup.java:212-217 | the working copy's new attributes are `Defaults` of the old ones |
| `IOSDeviceLaunchConfigurationTabGroup.DeviceTab.SigningSelected` | ui/src/org/robovm/eclipse/internal/IOSDeviceLaunchConfigurationTabGroup.java:114-124 | after the user picks a signing entry, the profile combo is enabled exactly when that entry is not index 1 |
| `IOSDeviceLaunchConfigurationTabGroup.DeviceTab.ProfileSelected` | ui/src/org/robovm/eclipse/internal/IOSDeviceLaunchConfigurationTabGroup.java:133-138 | picking a profile entry changes only the profile selection |
| `DeviceTabProperties.RestoredProfileLabel` | ui/src/org/robovm/eclipse/internal/IOSDeviceLaunchConfigurationTabGroup.java:171-183 | the profile combo shows, at the restored index, "Auto" or the label of the profile the lookup found |
| `DeviceTabProperties.RestoredSigningLabel` | ui/src/org/robovm/eclipse/internal/IOSDeviceLaunchConfigurationTabGroup.java:154-166 | the signing combo shows, at the restored index, "Skip Signing" when the first identity was found, and the previous identity's name when identity `p >= 1` was found |
| `DeviceTabProperties.ProfileRoundTrip` | ui/src/org/robovm/eclipse/internal/IOSDeviceLaunchConfigurationTabGroup.java:202-205 | saving the restored profile index (with any signing index but 1 that is in range) completes and writes the found profile's UUID, or null when none was found |
| `DeviceTabProperties.ProfileKeyRoundTrip` | ui/src/org/robovm/eclipse/internal/IOSDeviceLaunchConfigurationTabGroup.java:176-183 | a persisted UUID resolving to `profiles[p]` restores to `p + 1` (to its first copy if duplicated), and saving writes the same UUID back |
| `DeviceTabProperties.SigningRoundTrip` | ui/src/org/robovm/eclipse/internal/IOSDeviceLaunchConfigurationTabGroup.java:195-201 | the restored signing index is 1 exactly when the first identity was found, and saving it then only sets the skip flag; otherwise saving writes back the found fingerprint or null |
| `DeviceTabProperties.SigningChoiceSavesNextIdentity` | ui/src/org/robovm/eclipse/internal/IOSDeviceLaunchConfigurationTabGroup.java:199-201 | choosing the entry labelled `ids[k].name` saves `ids[k+1].fingerprint`, and for the last identity throws with nothing written |
| `DeviceTabProperties.SkipFlagNotRestored` | ui/src/org/robovm/eclipse/internal/IOSDeviceLaunchConfigurationTabGroup.java:154-166 | the restored signing index does not depend on the skip-signing attribute |
| `DeviceTabProperties.DefaultsRestoreAutoSigning` | ui/src/org/robovm/eclipse/internal/IOSDeviceLaunchConfigurationTabGroup.java:212-217 | after `setDefaults` the signing combo restores to Auto for any catalog, the profile attribute reads as before, and defaults are idempotent |
| `CorrectedSelection.CorrectedApplyAttributes` | ui/src/org/robovm/eclipse/internal/IOSDeviceLaunchConfigurationTabGroup.java:195-208 | `performApply` with the signing offset 2: completes exactly when the signing index is 0 or within `2..|ids|+1` (and the profile index in range), and writes `ids[i-2].fingerprint` |
| `CorrectedSelection.CorrectedSigningRoundTrip` | ui/src/org/robovm/eclipse/internal/IOSDeviceLaunchConfigurationTabGroup.java:165-166 | with offset 2 the restored index is never "Skip Signing", shows the found identity's name, and saving writes its fingerprint |
| `CorrectedSelection.CorrectedSigningChoice` | ui/src/org/robovm/eclipse/internal/IOSDeviceLaunchConfigurationTabGroup.java:199 | with offset 2 the entry labelled `ids[k].name` saves `ids[k].fingerprint` |
| `CorrectedSelection.SigningOffByOneWitness` | ui/src/org/robovm/eclipse/internal/IOSDeviceLaunchConfigurationTabGroup.java:166 | for [Dev A (AA11), Dev B (BB22)]: "BB22" restores to 2 and "AA11" to 1 as written (3 when corrected); choosing "Dev A" saves "BB22" ("AA11" when corrected) and "Dev B" throws |
| `CorrectedSelection.CorrectedDefaults` | ui/src/org/robovm/eclipse/internal/IOSDeviceLaunchConfigurationTabGroup.java:214-216 | reset clears signing id and profile, sets skip false, and leaves every other attribute alone |
| `CorrectedSelection.CorrectedDefaultsRestoreAuto` | ui/src/org/robovm/eclipse/internal/IOSDeviceLaunchConfigurationTabGroup.java:212-217 | after the corrected reset both combos restore to Auto for any catalogs and lookups |
| `CorrectedSelection.DefaultsKeepProfileWitness` | ui/src/org/robovm/eclipse/internal/IOSDeviceLaunchConfigurationTabGroup.java:215 | as written, a profile persisted as "U1" still restores to index 1 after `setDefaults` |

## Left out

- Widget construction, layout, fonts and labels (`createControl`, most of `createDeviceEditor`): pure SWT user interface. The combos are reduced to their items, selection index and enabled flag.
- `createTabs` and the tab-group registration: Eclipse extension-point glue.
- `super.initializeFrom`, `super.performApply` and `super.setDefaults` of `RoboVMTab`: RoboVMTab is not part of this model. Attributes other than the three device ones are carried as `OtherAttr` and are proved unchanged.
- `SigningIdentity.list()` and `ProvisioningProfile.list()`: keychain and file-system discovery in the RoboVM compiler library. The catalogs are parameters of `InitializeFrom`.
- `SigningIdentity.find` and `ProvisioningProfile.find`: their matching rules live in that library. They are the parameter `Finder`, which may return any element, or `None` for the IllegalArgumentException. The lemmas that need an exact lookup say so in their `requires`.
- The entitlements dictionary lookup of the application identifier: it is a plain `appId` field of the profile record. A profile without an application identifier, which makes the Java code throw a NullPointerException, is not modelled.
- `RoboVMPlugin.log` and `updateLaunchConfigurationDialog`: logging and dialog refresh have no effect on the modelled state.
- CoreException from `getAttribute` is modelled only through its cause inside the record: a non-string value stored under the attribute's name. An unavailable store is not modelled separately.
- Catalog records are values, and `IndexOf` compares them by value. Java compares by object identity (no `equals` override is visible). So two equal records in one catalog count as the same element, and the earlier one's position is used.
- `DeviceTab.PerformApply`: on a tab never initialised, Java throws a NullPointerException on the null catalog. The model's empty catalogs give the same outcome (`Threw`, nothing written).

## Findings

| source | as written | input that shows it | evidently intended | confidence | as-written member | corrected member |
|---|---|---|---|---|---|---|
| ui/src/org/robovm/eclipse/internal/IOSDeviceLaunchConfigurationTabGroup.java:166 | the signing combo is restored to `idx + 1` and saved from `signingIdentities.get(index - 1)`, though its list has two sentinels | identities [Dev A (AA11), Dev B (BB22)]: persisted "AA11" restores onto "Skip Signing"; "BB22" restores onto "Dev A"; choosing "Dev B" makes `get(2)` throw | offset 2 on both sides: restore `idx + 2`, save `get(index - 2)` | high, not executed | `DeviceTabProperties.SigningChoiceSavesNextIdentity`, `CorrectedSelection.SigningOffByOneWitness` | `CorrectedSelection.CorrectedSigningRoundTrip`, `CorrectedSelection.CorrectedSigningChoice` |
| ui/src/org/robovm/eclipse/internal/IOSDeviceLaunchConfigurationTabGroup.java:215 | `setDefaults` clears the signing-id attribute twice and never the provisioning-profile attribute | a configuration with profile "U1" still restores profile "U1" (index 1) after reset to defaults | the second write clears the provisioning-profile attribute | medium, not executed | `CorrectedSelection.DefaultsKeepProfileWitness` | `CorrectedSelection.CorrectedDefaultsRestoreAuto` |

The `DeviceTab` class models the code as written: these are descriptions of what the plugin does today. The corrected definitions (`CorrectedApplyAttributes`, `CorrectedDefaults`, and `RestoredIndex` with `SigningSentinels`) stand beside it, with their properties proved.
