# BLK support-VTOL loader, modelled in Dafny

MegaMek stores unit designs in BLK files. A BLK file is parsed into a
`BuildingBlock`: a map from field names ("Name", "tonnage", "armor", ...) to
an ordered list of values. `BLKSupportVTOLFile` is the loader for support
VTOLs. Its `getEntity` creates a `SupportVTOL` and fills it from the block
through the entity's setters, stopping with an `EntityLoadingException` when
a required field is missing or malformed. `defaultVGLFacing` gives the
default facing of a vehicular grenade launcher by mounting location.

The project models both operations.

- `JavaInt` holds the 32-bit `int` arithmetic the loader relies on:
  wrap-around, Java's `% 5`, which takes the sign of the dividend, and the
  saturating `(int)` cast of a double.
- `BuildingBlock` holds the data block and its typed first-value reads.
- `SupportVTOLEntity` holds the vehicle attributes the loader writes, as a
  value (`VehicleRecord`), and the `SupportVTOL` class.
  - The class has the same fields, one setter per setter the loader calls,
    and `Snapshot()` reading them all as a record.
  - Each setter changes only its own field.
- `BLKSupportVTOLFile` holds the loader in two forms.
  - `Load` is the reference definition. It is a chain of stage functions
    (identity, tonnage, motion, power plant, structure, armor, armor typing,
    tech ratings, equipment, omni) over `Result`, which carries the first
    error.
  - `GetEntity` is the imperative loader. It allocates a fresh entity,
    performs each stage through the setters (`Build*` methods, an array copy
    for the body slot, a `for` loop over the armor slots, a `while` loop for
    patchwork armor), and is proved to end in exactly the state `Load`
    describes, or to fail with `Load`'s error without returning an entity.
- `LoadProperties` states what `Load` guarantees.
  - Which error a malformed block produces: `Verdict`, a flat cascade of
    checks in the loader's order, on blocks whose fields have the expected
    kinds. Also shown: every reported error is borne out by the block.
  - What a successful load writes: `Expected`, the whole entity given field
    by field from the block, together with one content lemma per group of
    attributes.

The loader's collaborators are parameters (`Env`):
- `EntityMovementMode.getMode`;
- the entity's suspension factor, number of locations and location names;
- `BLKFile.translateEngineCode`.

The model follows the code as written at these points:
- Under patchwork armor, each location's armor tech level is read from the
  same `<location>_armor_type` field as its armor type.
- When the raw engine rating exceeds 2147483645, rounding up to a multiple
  of 5 wraps the Java `int` around to -2147483646. `RoundUpToFive` states
  this.
- A negative raw rating is not rounded, because Java's `%` is then not
  positive.

## Model

| member | source | states |
|---|---|---|
| `JavaInt.Wrap` | megamek/src/megamek/common/loaders/BLKSupportVTOLFile.java:103-105 | a Java `int` operation's result is congruent to the exact value modulo 2^32, and equal to it when that is in range |
| `JavaInt.RemFive` | megamek/src/megamek/common/loaders/BLKSupportVTOLFile.java:104-105 | Java's `% 5`: in 0..4 for a non-negative dividend, in -4..0 for a negative one, and congruent to it modulo 5 |
| `JavaInt.TruncateToInt` | megamek/src/megamek/common/loaders/BLKSupportVTOLFile.java:103 | `(int) weight` rounds toward zero (one-sided bounds for each sign) and saturates at the ends of the int range |
| `Wrappers.Assign` | megamek/src/megamek/common/loaders/BLKSupportVTOLFile.java:70-72 | an optional attribute takes the value read when the field is present and is otherwise left as it was |
| `BuildingBlock.AllInts` | megamek/src/megamek/common/loaders/BLKSupportVTOLFile.java:120 | the armor list read has one integer per value of the field, in order |
| `BLKSupportVTOLFile.Message` | megamek/src/megamek/common/loaders/BLKSupportVTOLFile.java:56-164 | each loader error carries its exception message; an accessor failure carries none; an invalid movement type's message ends with the rendered motion string |
| `BLKSupportVTOLFile.DefaultVGLFacing` | megamek/src/megamek/common/loaders/BLKSupportVTOLFile.java:37-50 | the default grenade-launcher facing is a hex side 0..5 |
| `BLKSupportVTOLFile.VGLFacingMirror` | megamek/src/megamek/common/loaders/BLKSupportVTOLFile.java:37-50 | the facing table is symmetric: the mirror location (right and left swapped) gets the mirror facing (6 - f) % 6 |
| `BLKSupportVTOLFile.VGLFacingRear` | megamek/src/megamek/common/loaders/BLKSupportVTOLFile.java:37-50 | a rear-facing side mount turns one hex side further back (right +1, left -1); the flag does not affect any other location |
| `BLKSupportVTOLFile.RoundUpToFive` | megamek/src/megamek/common/loaders/BLKSupportVTOLFile.java:104-106 | in range, the rating becomes a multiple of 5 at most 4 above the raw one; a negative rating is unchanged; above 2147483645 it wraps to -2147483646 |
| `BLKSupportVTOLFile.RoundUpToFiveLeast` | megamek/src/megamek/common/loaders/BLKSupportVTOLFile.java:104-106 | in range, the rounded rating is the least multiple of 5 not below the raw one |
| `BLKSupportVTOLFile.RoundUpToFiveIdempotent` | megamek/src/megamek/common/loaders/BLKSupportVTOLFile.java:104-106 | rounding an already rounded rating changes nothing, for every input |
| `BLKSupportVTOLFile.ComputeEngineRating` | megamek/src/megamek/common/loaders/BLKSupportVTOLFile.java:103-106 | the rating computed step by step in Java int arithmetic equals `EngineRating`; in range it is a multiple of 5 not below the raw rating |
| `BLKSupportVTOLFile.EquipmentOrderWithinVehicle` | megamek/src/megamek/common/loaders/BLKSupportVTOLFile.java:182-190 | equipment is loaded only for locations of the vehicle, and for the turret only when there is one |
| `BLKSupportVTOLFile.EquipmentOrderCoversVehicle` | megamek/src/megamek/common/loaders/BLKSupportVTOLFile.java:182-190 | every location of the vehicle has its equipment block loaded |
| `BLKSupportVTOLFile.EquipmentOrderDistinct` | megamek/src/megamek/common/loaders/BLKSupportVTOLFile.java:182-190 | no location has its equipment loaded twice |
| `BLKSupportVTOLFile.BuildIdentity` | megamek/src/megamek/common/loaders/BLKSupportVTOLFile.java:56-72 | the name, model and source setters leave the entity as `LoadIdentity` gives it, or fail with its error |
| `BLKSupportVTOLFile.BuildTonnage` | megamek/src/megamek/common/loaders/BLKSupportVTOLFile.java:74-77 | the weight written, or the missing-weight error, as `LoadTonnage` gives them |
| `BLKSupportVTOLFile.BuildMotion` | megamek/src/megamek/common/loaders/BLKSupportVTOLFile.java:79-87 | the movement mode written, or the missing or invalid movement error, as `LoadMotion` gives them |
| `BLKSupportVTOLFile.BuildPowerPlant` | megamek/src/megamek/common/loaders/BLKSupportVTOLFile.java:91-108 | fuel, engine and walk MP written, or the cruise-MP error, as `LoadPowerPlant` gives them |
| `BLKSupportVTOLFile.BuildStructure` | megamek/src/megamek/common/loaders/BLKSupportVTOLFile.java:110-114 | the structure type written as `LoadStructure` gives it |
| `BLKSupportVTOLFile.BuildBasics` | megamek/src/megamek/common/loaders/BLKSupportVTOLFile.java:56-114 | the first five stages in order, stopping at the first error, as `LoadBasics` gives them |
| `BLKSupportVTOLFile.ArrayCopy` | megamek/src/megamek/common/loaders/BLKSupportVTOLFile.java:130 | `System.arraycopy` places the source at the destination offset and keeps every other element |
| `BLKSupportVTOLFile.InitializeAllArmor` | megamek/src/megamek/common/loaders/BLKSupportVTOLFile.java:131-133 | after the loop each slot x holds fullArmor[x]; no other attribute changes |
| `BLKSupportVTOLFile.BuildArmor` | megamek/src/megamek/common/loaders/BLKSupportVTOLFile.java:116-133 | reports the armor read or its error as `ReadArmor` does, and on success writes the turret flags and armor slots as `ApplyArmor` gives them |
| `BLKSupportVTOLFile.BuildPatchwork` | megamek/src/megamek/common/loaders/BLKSupportVTOLFile.java:154-158 | the per-location loop leaves the entity as `LoadPatchwork` gives it, or fails at the same read |
| `BLKSupportVTOLFile.BuildArmorTyping` | megamek/src/megamek/common/loaders/BLKSupportVTOLFile.java:135-159 | both armor-typing branches leave the entity as `LoadArmorTyping` gives it, or fail with its error |
| `BLKSupportVTOLFile.BuildTechRatings` | megamek/src/megamek/common/loaders/BLKSupportVTOLFile.java:161-177 | the tech ratings written, or the structural-tech-rating error, as `LoadTechRatings` gives them |
| `BLKSupportVTOLFile.LoadAllEquipment` | megamek/src/megamek/common/loaders/BLKSupportVTOLFile.java:182-190 | the equipment blocks loaded are those of `EquipmentOrder`, in order, the turret's only with a turret |
| `BLKSupportVTOLFile.LoadSucceeds` | megamek/src/megamek/common/loaders/BLKSupportVTOLFile.java:53-197 | a load whose stages all succeed yields the entity the stages build |
| `BLKSupportVTOLFile.GetEntity` | megamek/src/megamek/common/loaders/BLKSupportVTOLFile.java:53-197 | on success, a fresh entity whose attributes are exactly `Load`'s result; otherwise `Load`'s error and no entity |
| `SupportVTOLEntity.SupportVTOL.constructor` | megamek/src/megamek/common/loaders/BLKSupportVTOLFile.java:54 | a new entity starts with every attribute at its initial value |
| `SupportVTOLEntity.SupportVTOL.SetChassis` | megamek/src/megamek/common/loaders/BLKSupportVTOLFile.java:59 | writes the chassis and nothing else |
| `SupportVTOLEntity.SupportVTOL.SetModel` | megamek/src/megamek/common/loaders/BLKSupportVTOLFile.java:60-64 | writes the model and nothing else |
| `SupportVTOLEntity.SupportVTOL.SetSource` | megamek/src/megamek/common/loaders/BLKSupportVTOLFile.java:71 | writes the source and nothing else |
| `SupportVTOLEntity.SupportVTOL.SetWeight` | megamek/src/megamek/common/loaders/BLKSupportVTOLFile.java:77 | writes the weight and nothing else |
| `SupportVTOLEntity.SupportVTOL.SetMovementMode` | megamek/src/megamek/common/loaders/BLKSupportVTOLFile.java:87 | writes the movement mode and nothing else |
| `SupportVTOLEntity.SupportVTOL.SetFuelTonnage` | megamek/src/megamek/common/loaders/BLKSupportVTOLFile.java:97 | writes the fuel tonnage and nothing else |
| `SupportVTOLEntity.SupportVTOL.SetEngine` | megamek/src/megamek/common/loaders/BLKSupportVTOLFile.java:107 | writes the engine and nothing else |
| `SupportVTOLEntity.SupportVTOL.SetOriginalWalkMP` | megamek/src/megamek/common/loaders/BLKSupportVTOLFile.java:108 | writes the original walk MP and nothing else |
| `SupportVTOLEntity.SupportVTOL.SetStructureType` | megamek/src/megamek/common/loaders/BLKSupportVTOLFile.java:110-114 | writes the structure type and nothing else |
| `SupportVTOLEntity.SupportVTOL.SetHasNoTurret` | megamek/src/megamek/common/loaders/BLKSupportVTOLFile.java:125 | writes the no-turret flag and nothing else |
| `SupportVTOLEntity.SupportVTOL.SetHasNoDualTurret` | megamek/src/megamek/common/loaders/BLKSupportVTOLFile.java:126 | writes the no-dual-turret flag and nothing else |
| `SupportVTOLEntity.SupportVTOL.InitializeArmor` | megamek/src/megamek/common/loaders/BLKSupportVTOLFile.java:132 | writes one location's armor points and nothing else |
| `SupportVTOLEntity.SupportVTOL.SetArmorType` | megamek/src/megamek/common/loaders/BLKSupportVTOLFile.java:140-143 | writes the entity-wide armor type and nothing else |
| `SupportVTOLEntity.SupportVTOL.SetArmorTechLevel` | megamek/src/megamek/common/loaders/BLKSupportVTOLFile.java:146 | writes the entity-wide armor tech level and nothing else |
| `SupportVTOLEntity.SupportVTOL.SetBARRating` | megamek/src/megamek/common/loaders/BLKSupportVTOLFile.java:152 | writes the entity-wide BAR rating and nothing else |
| `SupportVTOLEntity.SupportVTOL.SetArmorTypeAt` | megamek/src/megamek/common/loaders/BLKSupportVTOLFile.java:155 | writes one location's armor type and nothing else |
| `SupportVTOLEntity.SupportVTOL.SetArmorTechLevelAt` | megamek/src/megamek/common/loaders/BLKSupportVTOLFile.java:156 | writes one location's armor tech level and nothing else |
| `SupportVTOLEntity.SupportVTOL.SetBARRatingAt` | megamek/src/megamek/common/loaders/BLKSupportVTOLFile.java:157 | writes one location's BAR rating and nothing else |
| `SupportVTOLEntity.SupportVTOL.SetStructuralTechRating` | megamek/src/megamek/common/loaders/BLKSupportVTOLFile.java:166-167 | writes the structural tech rating and nothing else |
| `SupportVTOLEntity.SupportVTOL.SetArmorTechRating` | megamek/src/megamek/common/loaders/BLKSupportVTOLFile.java:170-171 | writes the armor tech rating and nothing else |
| `SupportVTOLEntity.SupportVTOL.SetEngineTechRating` | megamek/src/megamek/common/loaders/BLKSupportVTOLFile.java:175-176 | writes the engine tech rating and nothing else |
| `SupportVTOLEntity.SupportVTOL.LoadEquipment` | megamek/src/megamek/common/loaders/BLKSupportVTOLFile.java:182-189 | appends one equipment block (name, location) and changes nothing else |
| `SupportVTOLEntity.SupportVTOL.SetOmni` | megamek/src/megamek/common/loaders/BLKSupportVTOLFile.java:193 | writes the omni flag and nothing else |
| `LoadProperties.PatchworkLoopFaults` | megamek/src/megamek/common/loaders/BLKSupportVTOLFile.java:154-158 | the patchwork loop fails exactly when some location's read fails, and then with the error of the first one |
| `LoadProperties.FirstUnreadableIsAccessorFailure` | megamek/src/megamek/common/loaders/BLKSupportVTOLFile.java:154-158 | the patchwork loop fails only through the data block's accessor, never with a loader message |
| `LoadProperties.PatchworkLoopKeys` | megamek/src/megamek/common/loaders/BLKSupportVTOLFile.java:154-158 | a successful patchwork loop writes exactly the locations 1 .. locations()-1 into each per-location table, plus those already there |
| `LoadProperties.PatchworkLoopValues` | megamek/src/megamek/common/loaders/BLKSupportVTOLFile.java:154-158 | at each visited location, type and tech level are both the `_armor_type` value and the BAR rating is the `_barrating` value; other locations keep their values |
| `LoadProperties.IdentityFaults` | megamek/src/megamek/common/loaders/BLKSupportVTOLFile.java:56-72 | on a well-typed block the identity stage fails exactly when "Name" is absent |
| `LoadProperties.MotionFaults` | megamek/src/megamek/common/loaders/BLKSupportVTOLFile.java:79-87 | the motion stage fails exactly when "motion_type" is absent (missing) or getMode gives NONE (invalid, naming the string) |
| `LoadProperties.PowerPlantFaults` | megamek/src/megamek/common/loaders/BLKSupportVTOLFile.java:91-108 | the power-plant stage fails exactly when "cruiseMP" is absent; engine type and fuel are optional |
| `LoadProperties.BasicsFaults` | megamek/src/megamek/common/loaders/BLKSupportVTOLFile.java:56-114 | the first five stages fail exactly when a required field among Name, tonnage, motion_type and cruiseMP is missing or the movement is invalid, reporting the first in that order |
| `LoadProperties.ArmorFaults` | megamek/src/megamek/common/loaders/BLKSupportVTOLFile.java:116-124 | the armor read fails exactly when "armor" is absent or does not have 5 or 6 entries, with the matching error |
| `LoadProperties.ArmorTypingFaults` | megamek/src/megamek/common/loaders/BLKSupportVTOLFile.java:135-159 | uniform armor fails exactly when "barrating" is absent; patchwork armor fails exactly at a failing per-location read |
| `LoadProperties.TechRatingsFaults` | megamek/src/megamek/common/loaders/BLKSupportVTOLFile.java:161-177 | the tech-rating stage fails exactly when "structural_tech_rating" is absent |
| `LoadProperties.LoadVerdict` | megamek/src/megamek/common/loaders/BLKSupportVTOLFile.java:53-197 | on a well-typed block a load fails exactly when the cascade of required-field checks, in the loader's order, finds an error, and reports that error |
| `LoadProperties.BasicsErrorsJustified` | megamek/src/megamek/common/loaders/BLKSupportVTOLFile.java:56-114 | every error of the first five stages is borne out by the block, whatever the block |
| `LoadProperties.ArmorTypingErrorsJustified` | megamek/src/megamek/common/loaders/BLKSupportVTOLFile.java:135-159 | every armor-typing error is borne out by the block |
| `LoadProperties.LoadErrorsJustified` | megamek/src/megamek/common/loaders/BLKSupportVTOLFile.java:53-197 | whatever the block, the error a load reports means what it says: the named field is absent, the movement type is rejected, or the armor list has the wrong length |
| `LoadProperties.BasicsMatch` | megamek/src/megamek/common/loaders/BLKSupportVTOLFile.java:56-114 | the first five stages, when they succeed, write exactly the identity, weight, movement, power-plant and structure attributes read from the block |
| `LoadProperties.ArmorSlots` | megamek/src/megamek/common/loaders/BLKSupportVTOLFile.java:127-133 | initializing every slot of the full armor array gives the body 0 and location i the i-th armor value |
| `LoadProperties.PatchworkTables` | megamek/src/megamek/common/loaders/BLKSupportVTOLFile.java:154-158 | from empty tables the patchwork loop yields the per-location tables the block gives |
| `LoadProperties.ArmorMatch` | megamek/src/megamek/common/loaders/BLKSupportVTOLFile.java:116-159 | the armor and armor-typing stages, when they succeed, write exactly the armor layout and typing the block gives |
| `LoadProperties.RatingsMatch` | megamek/src/megamek/common/loaders/BLKSupportVTOLFile.java:161-194 | the tech-rating, equipment and omni stages complete the expected entity |
| `LoadProperties.LoadMatchesExpected` | megamek/src/megamek/common/loaders/BLKSupportVTOLFile.java:53-197 | a successful load yields exactly the entity `Expected` gives, field by field from the block |
| `LoadProperties.LoadedIdentity` | megamek/src/megamek/common/loaders/BLKSupportVTOLFile.java:56-72 | the chassis is the "Name" value; the model is the "Model" value unless absent or null, and then empty; the source is set only when present |
| `LoadProperties.LoadedMovement` | megamek/src/megamek/common/loaders/BLKSupportVTOLFile.java:74-87 | the weight is the "tonnage" value; the movement mode is getMode of "motion_type", and never NONE |
| `LoadProperties.LoadedPowerPlant` | megamek/src/megamek/common/loaders/BLKSupportVTOLFile.java:91-108 | the walk MP is "cruiseMP"; the engine has the tank and support flags, the translated engine code (FUSION by default) and the rounded rating; fuel is set only when present |
| `LoadProperties.LoadedStructure` | megamek/src/megamek/common/loaders/BLKSupportVTOLFile.java:110-114 | the structure type is "internal_type", standard when absent |
| `LoadProperties.LoadedArmor` | megamek/src/megamek/common/loaders/BLKSupportVTOLFile.java:116-133 | the armor list has 5 or 6 entries; with 5, no turret; never a dual turret; the body has 0 points, location i the i-th value, and no other location has armor |
| `LoadProperties.LoadedEquipment` | megamek/src/megamek/common/loaders/BLKSupportVTOLFile.java:182-194 | equipment is loaded for the six fixed locations and, exactly when there is a turret, the turret; the entity is omni exactly when "omni" is present |
| `LoadProperties.LoadedUniformArmor` | megamek/src/megamek/common/loaders/BLKSupportVTOLFile.java:135-152 | without patchwork: armor type "armor_type" (standard by default), tech level only when "armor_tech" is present, BAR rating "barrating", no per-location values |
| `LoadProperties.LoadedPatchworkArmor` | megamek/src/megamek/common/loaders/BLKSupportVTOLFile.java:135-159 | with patchwork: no entity-wide typing; every location after the body gets its `_armor_type` value as type and tech level and its `_barrating` value |
| `LoadProperties.LoadedTechRatings` | megamek/src/megamek/common/loaders/BLKSupportVTOLFile.java:161-177 | the structural tech rating is "structural_tech_rating"; armor and engine tech ratings are set only when present |

## Left out

- `setTechLevel`, `setFluff` and `checkManualBV` (lines 66-68) and
  `addTransports` (line 89) are BLKFile helpers whose code is not part of
  this model. The model assumes they neither fail nor change the attributes
  modelled.
- `autoSetInternal`, `recalculateTechAdvancement` and
  `setArmorTonnage(getArmorWeight())` (lines 179-180 and 195) compute
  internal structure, tech advancement and armor weight inside the entity
  classes, which are not part of this model.
- `loadEquipment` is recorded only as the block name and location it is
  called with. The equipment lookup it performs, and its exceptions, are
  not modelled.
- Exceptions thrown by collaborators (`getMode`, the suspension factor,
  `translateEngineCode`, the `Engine` constructor) are not modelled. The
  collaborators are total functions passed in as parameters.
- Floating point: tonnage and fuel are reals. Only the `(int)` cast of the
  weight in the engine rating is modelled as Java does it.
- The `Engine` constructor's internals are not modelled. The engine is
  recorded as rating, translated code and the named flag set
  {TANK_ENGINE, SUPPORT_VEE_ENGINE}.
- Parsing a BLK file into a `BuildingBlock` is not part of this model.
  - The block is a map from field names to value lists.
  - A `getDataAs...()[0]` read that fails (empty list, wrong kind, absent
    key) becomes the error `Unreadable(key)`, without the message or
    exception class Java would produce.
- The numbers of `SupportVTOL.locations()`, the location names and the
  constants `LOC_*`, `T_STRUCTURE_STANDARD`, `T_ARMOR_STANDARD`,
  `T_ARMOR_PATCHWORK` and `FUSION` come from classes that are not part of
  this model.
  - The constants take fixed values here.
  - `locations()` is a parameter that depends on the no-turret flag already
    set.
- The loader reads "Model" and "armor_type" twice. The model reads them
  once, since the block does not change between the reads.
- LoadedPowerPlant: states the rating as a multiple of 5 within 4 of the raw
  rating only for raw ratings in 0 .. 2147483645. Negative and larger raw
  ratings behave as `RoundUpToFive` states.
- LoadVerdict: characterises the error only for well-typed blocks, whose
  fixed fields hold values of the kind the loader reads.
  `LoadErrorsJustified` covers every block, but says nothing about
  `Unreadable`.
