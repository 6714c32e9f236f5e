# Kizzy preference facade in Dafny

This project models `Prefs`, the preference facade of the Kizzy Android app (a
Discord rich-presence client), and proves properties of the model. `Prefs` is a
Kotlin singleton over an embedded key-value store (MMKV). It offers:

- typed `set`/`get`/`remove` for String, Int, Boolean, Float and Long values;
- three allow-lists of package names: apps, media apps and experimental apps.
  Each is stored as a JSON array and toggled one name at a time. The media list
  falls back to a predefined list of 27 apps until a list has been saved;
- a package-to-activity-type map, stored as a JSON object and updated by upsert;
- `checkAndAutoDeleteSavedImages`, which clears the two image caches when
  strictly more than 24 hours have passed since the last clearing.

Files:

- `lists.dfy` (module `Lists`): the `ArrayList<String>` operations that the
  toggles use, on sequences. `remove` deletes the first occurrence. The module
  also holds `Toggle` and its lemmas: duplicate-freedom is kept, membership
  flips, and toggling twice gives the results below.
- `preference.dfy` (module `Preference`): the tagged value store, the key
  constants and the predefined media list. The queries are functions of the
  store. The class `Prefs` holds the store in a `map` field, and its methods
  write to it. Each method's postcondition ties the new store to a pure
  function of the old one (`AfterToggle`, `AfterSaveAppActivityType`,
  `AfterCleanup`). Lemmas state what the source promises about those
  functions.

Modelling choices:

- JSON text that the facade writes is kept as the value it encodes: `JsonArray`
  or `JsonObject`. Any other text is `Plain`, and decoding it fails.
- A Kotlin `Int` is the newtype `Int32`; a `Long` is `Int64`.
- The Long subtraction in the deletion check wraps modulo 2^64, as the JVM's
  does (`Minus`).
- The two `System.currentTimeMillis()` readings of the deletion check are
  parameters: `firstNow` (the default's clock) and `now`.
- An exception that escapes the source is an `Err` result:
  - `UnsupportedOperationException` is `UnsupportedOperation`.
  - A failed `Json.decodeFromString` that nobody catches is `DecodeFailed`.
  - When the toggle's decode fails, the store keeps its old state.

## Model

| member | source | states |
|---|---|---|
| Preference.Fallback | common/preference/src/main/java/com/my/kizzy/preference/Prefs.kt:40-44 | the fallback of each supported type has that type ("" / -1 / false / -1f / -1L) |
| Preference.Get | common/preference/src/main/java/com/my/kizzy/preference/Prefs.kt:36-46 | an unsupported type is exactly the UnsupportedOperation error; otherwise the result has the requested type, is the stored value when one of that type is present, else the caller's default, else the type's fallback |
| Preference.GetAfterSet | common/preference/src/main/java/com/my/kizzy/preference/Prefs.kt:26-46 | reading a key right after setting it returns the value written, whatever the default |
| Preference.GetAfterRemove | common/preference/src/main/java/com/my/kizzy/preference/Prefs.kt:36-50 | after removal a read returns the caller's default, or the type's fallback |
| Preference.GetOtherKey | common/preference/src/main/java/com/my/kizzy/preference/Prefs.kt:26-50 | setting or removing one key changes no read of a different key |
| Preference.Prefs.constructor | common/preference/src/main/java/com/my/kizzy/preference/Prefs.kt:25 | the facade starts with the persisted store |
| Preference.Prefs.Set | common/preference/src/main/java/com/my/kizzy/preference/Prefs.kt:26-34 | null removes the key, a String/Int/Boolean/Float/Long replaces its entry, any other value fails with UnsupportedOperation and leaves the store unchanged |
| Preference.Prefs.Remove | common/preference/src/main/java/com/my/kizzy/preference/Prefs.kt:48-50 | the key is gone and every other entry is as before |
| Preference.ModelledKeysDistinct | common/preference/src/main/java/com/my/kizzy/preference/Prefs.kt:144-188 | the seven keys the modelled operations touch (the three allow-lists, the activity types, the two image caches, the last-deleted stamp) are pairwise different |
| Preference.PredefinedMediaAppsDistinct | common/preference/src/main/java/com/my/kizzy/preference/Prefs.kt:196-231 | the predefined media list holds 27 names with no duplicate |
| Preference.AllowList | common/preference/src/main/java/com/my/kizzy/preference/Prefs.kt:53-54 | with nothing saved the list is the key's default (empty, or the predefined media apps); a saved list reads back as its items; the decode fails exactly when the stored string is not a JSON array |
| Preference.IsAppEnabled | common/preference/src/main/java/com/my/kizzy/preference/Prefs.kt:52-56 | no app is enabled until a list is saved; a null name is never enabled; it fails exactly when the stored list does not decode |
| Preference.IsMediaAppEnabled | common/preference/src/main/java/com/my/kizzy/preference/Prefs.kt:75-79 | until a list is saved, exactly the predefined media apps are enabled; a null name is never enabled; it fails exactly when the stored list does not decode |
| Preference.IsExperimentalAppEnabled | common/preference/src/main/java/com/my/kizzy/preference/Prefs.kt:265-269 | no app is enabled until a list is saved; a null name is never enabled; it fails exactly when the stored list does not decode |
| Preference.EnabledIsMember | common/preference/src/main/java/com/my/kizzy/preference/Prefs.kt:55 | on a list that decodes, a name is enabled exactly when it is in the list (`contains`) |
| Preference.AfterToggle | common/preference/src/main/java/com/my/kizzy/preference/Prefs.kt:58-67 | fails exactly when the list does not decode; otherwise the saved list is the toggle of the old one, the key is now present, and every other entry is unchanged |
| Preference.Prefs.SaveToggled | common/preference/src/main/java/com/my/kizzy/preference/Prefs.kt:58-67 | read, decode, remove-or-append and write back: the new store is `AfterToggle` of the old one; on a decode failure it fails and the store is unchanged |
| Preference.Prefs.SaveToPrefs | common/preference/src/main/java/com/my/kizzy/preference/Prefs.kt:58-67 | toggles the package in the enabled apps as `AfterToggle` states |
| Preference.Prefs.SaveMediaAppToPrefs | common/preference/src/main/java/com/my/kizzy/preference/Prefs.kt:90-99 | toggles the package in the enabled media apps as `AfterToggle` states |
| Preference.Prefs.SaveExperimentalAppToPrefs | common/preference/src/main/java/com/my/kizzy/preference/Prefs.kt:271-280 | toggles the package in the enabled experimental apps as `AfterToggle` states |
| Preference.ToggleFlipsMembership | common/preference/src/main/java/com/my/kizzy/preference/Prefs.kt:85-86 | on a duplicate-free list a save flips whether the package is enabled, keeps the list duplicate-free and changes no other package's membership |
| Preference.ToggleKeepsOtherLists | common/preference/src/main/java/com/my/kizzy/preference/Prefs.kt:58-99 | a save on one allow-list leaves the other two as they were |
| Preference.ToggleTwice | common/preference/src/main/java/com/my/kizzy/preference/Prefs.kt:90-99 | saving the same package twice restores an absent package's list exactly; a present package moves to the end (same multiset), so the list is unchanged exactly when it was last |
| Preference.EmptyStoreDuplicateFree | common/preference/src/main/java/com/my/kizzy/preference/Prefs.kt:53-79 | in a store where nothing is saved, all three allow-lists are duplicate-free |
| Preference.ToggleKeepsDuplicateFree | common/preference/src/main/java/com/my/kizzy/preference/Prefs.kt:58-99 | every save keeps all three allow-lists duplicate-free |
| Preference.MediaDefaults | common/preference/src/main/java/com/my/kizzy/preference/Prefs.kt:192-195 | with no media list saved, every predefined app is enabled; the first toggle of one saves the predefined list without it (26 names) and disables it |
| Preference.AppActivityTypes | common/preference/src/main/java/com/my/kizzy/preference/Prefs.kt:256-263 | the empty map when nothing is stored; the stored map when it decodes; the empty map when it does not |
| Preference.SaveAppActivityTypeUpserts | common/preference/src/main/java/com/my/kizzy/preference/Prefs.kt:245-254 | afterwards the package maps to the new type and every other package keeps its entry; a map that did not decode becomes the single entry; no other key of the store changes |
| Preference.SaveAppActivityTypeIdempotent | common/preference/src/main/java/com/my/kizzy/preference/Prefs.kt:245-254 | saving the same activity type twice is the same as saving it once |
| Preference.Prefs.SaveAppActivityType | common/preference/src/main/java/com/my/kizzy/preference/Prefs.kt:245-254 | the decode-or-empty, upsert and write-back sequence: the new store is `AfterSaveAppActivityType` of the old one, and the decoded map gains the entry |
| Preference.Minus | common/preference/src/main/java/com/my/kizzy/preference/Prefs.kt:125-128 | Long subtraction: congruent to the exact difference modulo 2^64, and equal to it when that fits in a Long |
| Preference.AfterCleanup | common/preference/src/main/java/com/my/kizzy/preference/Prefs.kt:121-133 | when due, both image caches are removed and the stamp is `now`; no other key changes; when not due, the store is unchanged |
| Preference.Prefs.CheckAndAutoDeleteSavedImages | common/preference/src/main/java/com/my/kizzy/preference/Prefs.kt:121-133 | the new store is `AfterCleanup` of the old one, given the two clock readings |
| Preference.CleanupWindow | common/preference/src/main/java/com/my/kizzy/preference/Prefs.kt:122-128 | with values where nothing wraps, the deletion is due exactly when strictly more than 86 400 000 ms have passed; on the first run, exactly when the second clock reading is later than the first |
| Preference.CleanupRestamps | common/preference/src/main/java/com/my/kizzy/preference/Prefs.kt:128-131 | after a deletion the stamp is `now`, and the next one is due only once more than a day has passed since it |
| Preference.CleanupIdempotent | common/preference/src/main/java/com/my/kizzy/preference/Prefs.kt:121-133 | a second call with the same clock readings changes nothing |
| Lists.IndexOf | common/preference/src/main/java/com/my/kizzy/preference/Prefs.kt:62 | the position found holds the element, and no earlier position does |
| Lists.RemoveFirst | common/preference/src/main/java/com/my/kizzy/preference/Prefs.kt:62 | `ArrayList.remove(element)`: a list without the element is unchanged; otherwise it is one shorter |
| Lists.RemoveFirstMultiset | common/preference/src/main/java/com/my/kizzy/preference/Prefs.kt:62 | the removal takes exactly one copy of the element out of the multiset of elements |
| Lists.RemoveFirstKeepsOthers | common/preference/src/main/java/com/my/kizzy/preference/Prefs.kt:62 | every other element is in the list after the removal exactly when it was before |
| Lists.RemoveFirstNoDup | common/preference/src/main/java/com/my/kizzy/preference/Prefs.kt:62 | on a duplicate-free list the removal keeps it duplicate-free and leaves no copy of the element |
| Lists.Toggle | common/preference/src/main/java/com/my/kizzy/preference/Prefs.kt:61-64 | a present element makes the list one shorter; an absent one is appended at the end behind the unchanged list |
| Lists.ToggleFlips | common/preference/src/main/java/com/my/kizzy/preference/Prefs.kt:61-64 | on a duplicate-free list: stays duplicate-free, the element's membership flips, every other element's membership is unchanged |
| Lists.ToggleTwiceAbsent | common/preference/src/main/java/com/my/kizzy/preference/Prefs.kt:61-64 | toggling an absent element twice gives back exactly the list |
| Lists.ToggleTwicePresent | common/preference/src/main/java/com/my/kizzy/preference/Prefs.kt:61-64 | toggling a present element twice moves it to the end with the same multiset; the list is unchanged exactly when it was last |

## Left out

- MMKV itself, meaning its file persistence, multi-process locking and thread-safety, is not part of this model. The store is a value in a `map` field that starts as whatever was persisted.
- JSON syntax is not modelled. Encoded lists and maps are kept as the values they encode, so encoding then decoding is the identity by construction. Malformed text is one `Plain` case.
- Float values are kept as opaque 32-bit patterns and never interpreted. The fallback -1f is its bit pattern `0xBF800000`.
- `getUser`, `getSavedLatestRelease` and `saveLatestRelease` are left out. They only decode or encode `User` and `Release`, and those types are not part of this model.
- `DiscordLoginWebView.kt` is not part of this model. It is an Android WebView login screen (navigation callbacks, injected JavaScript) with no store logic to state.
- Preference.Get: reading a key that holds a value of another type returns the default. The real store would reinterpret the raw bytes, and what it returns then is not modelled.
- Preference.Prefs.Set: returns an empty `Ok` where the source returns MMKV's Boolean success flag. The store is modelled as never failing to write.
- Preference.ModelledKeysDistinct: distinctness is proved for the seven keys the modelled operations use. The other key constants are declared with their exact strings, but their pairwise distinctness is not proved.
- Lists.RemoveFirst: its own postcondition gives only the length. What it removes and what it keeps are stated by `RemoveFirstMultiset`, `RemoveFirstKeepsOthers` and `RemoveFirstNoDup`.
- The clock is not modelled. The two readings of `System.currentTimeMillis()` are parameters.
