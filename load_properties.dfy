/** What a support-VTOL load guarantees: which error a malformed block
    produces, and what a successful load writes into the entity. */
module LoadProperties {
  import opened Wrappers
  import opened JavaInt
  import opened BuildingBlock
  import opened SupportVTOLEntity
  import opened BLKSupportVTOLFile

  // ------------------------------------------------------------ well-typed blocks

  predicate TextReadable(b: Block, key: string) {
    key in b ==> FirstText(b, key).Some?
  }

  predicate IntReadable(b: Block, key: string) {
    key in b ==> FirstInt(b, key).Some?
  }

  predicate RealReadable(b: Block, key: string) {
    key in b ==> FirstReal(b, key).Some?
  }

  /** Every fixed field the loader reads, when present, holds a first value of
      the kind the loader reads it as ("armor" a list of integers). Under this
      the only accessor failures left are the per-location patchwork reads. */
  predicate WellTyped(b: Block) {
    TextReadable(b, "Name") && TextReadable(b, "Model") && TextReadable(b, "source")
    && RealReadable(b, "tonnage") && TextReadable(b, "motion_type")
    && IntReadable(b, "engine_type") && RealReadable(b, "fuel") && IntReadable(b, "cruiseMP")
    && IntReadable(b, "internal_type") && ("armor" in b ==> AllInts(b, "armor").Some?)
    && IntReadable(b, "armor_type") && IntReadable(b, "armor_tech") && IntReadable(b, "barrating")
    && IntReadable(b, "structural_tech_rating") && IntReadable(b, "armor_tech_rating")
    && IntReadable(b, "engine_tech_rating")
  }

  /** The block asks for patchwork armor. */
  predicate IsPatchwork(b: Block) {
    FirstInt(b, "armor_type") == Some(ArmorPatchwork)
  }

  /** The first per-location patchwork read, for locations i .. n-1, that fails. */
  function FirstUnreadable(b: Block, env: Env, i: int, n: int): Option<LoadError>
    decreases n - i
  {
    if i >= n then None
    else if FirstInt(b, ArmorTypeKey(env, i)).None? then Some(Unreadable(ArmorTypeKey(env, i)))
    else if FirstInt(b, BarRatingKey(env, i)).None? then Some(Unreadable(BarRatingKey(env, i)))
    else FirstUnreadable(b, env, i + 1, n)
  }

  /** The outcome of a load on a well-typed block, as a flat cascade of checks
      in the order the loader makes them: the error, or None for success. */
  function Verdict(b: Block, env: Env): Option<LoadError> {
    var motion := TextOr(b, "motion_type");
    var armor := IntsOr(b, "armor");
    if "Name" !in b then Some(MissingName)
    else if "tonnage" !in b then Some(MissingWeight)
    else if "motion_type" !in b then Some(MissingMovement)
    else if env.getMode(motion) == NoneMode then Some(InvalidMovement(motion))
    else if "cruiseMP" !in b then Some(MissingCruiseMP)
    else if "armor" !in b then Some(MissingArmor)
    else if |armor| != 5 && |armor| != 6 then Some(BadArmorLength)
    else if IsPatchwork(b) && FirstUnreadable(b, env, 1, env.locations(|armor| == 5)).Some? then
      FirstUnreadable(b, env, 1, env.locations(|armor| == 5))
    else if !IsPatchwork(b) && "barrating" !in b then Some(MissingBarRating)
    else if "structural_tech_rating" !in b then Some(MissingStructuralTechRating)
    else None
  }

  // ------------------------------------------------------------- the patchwork loop

  /** The patchwork loop fails exactly at the first per-location read that fails. */
  lemma {:induction false} PatchworkLoopFaults(b: Block, env: Env, i: int, n: int, acc: Patch)
    ensures PatchworkLoop(b, env, i, n, acc).Failure? <==> FirstUnreadable(b, env, i, n).Some?
    ensures PatchworkLoop(b, env, i, n, acc).Failure? ==>
      PatchworkLoop(b, env, i, n, acc).error == FirstUnreadable(b, env, i, n).value
    decreases n - i
  {
    if i < n && FirstInt(b, ArmorTypeKey(env, i)).Some? && FirstInt(b, BarRatingKey(env, i)).Some? {
      var code := FirstInt(b, ArmorTypeKey(env, i)).value;
      var bar := FirstInt(b, BarRatingKey(env, i)).value;
      PatchworkLoopFaults(b, env, i + 1, n,
        Patch(acc.types[i := code], acc.techs[i := code], acc.bars[i := bar]));
    }
  }

  /** The patchwork loop's failures are all accessor failures. */
  lemma {:induction false} FirstUnreadableIsAccessorFailure(b: Block, env: Env, i: int, n: int)
    ensures FirstUnreadable(b, env, i, n).Some? ==> FirstUnreadable(b, env, i, n).value.Unreadable?
    decreases n - i
  {
    if i < n {
      FirstUnreadableIsAccessorFailure(b, env, i + 1, n);
    }
  }

  /** A patchwork loop that succeeds writes every location it visits and no
      other key. */
  lemma {:induction false} PatchworkLoopKeys(b: Block, env: Env, i: int, n: int, acc: Patch)
    requires PatchworkLoop(b, env, i, n, acc).Success?
    ensures var p := PatchworkLoop(b, env, i, n, acc).value;
      (forall j :: j in p.types <==> j in acc.types || i <= j < n)
      && (forall j :: j in p.techs <==> j in acc.techs || i <= j < n)
      && (forall j :: j in p.bars <==> j in acc.bars || i <= j < n)
    decreases n - i
  {
    if i < n {
      var code := FirstInt(b, ArmorTypeKey(env, i)).value;
      var bar := FirstInt(b, BarRatingKey(env, i)).value;
      PatchworkLoopKeys(b, env, i + 1, n, Patch(acc.types[i := code], acc.techs[i := code], acc.bars[i := bar]));
    }
  }

  /** A patchwork loop that succeeds writes, at every location it visits, the
      location's "_armor_type" value as both its armor type and its armor tech
      level and its "_barrating" value as its BAR rating, and leaves the values
      at every other location as they were. */
  lemma {:induction false} PatchworkLoopValues(b: Block, env: Env, i: int, n: int, acc: Patch)
    requires PatchworkLoop(b, env, i, n, acc).Success?
    ensures var p := PatchworkLoop(b, env, i, n, acc).value;
      (forall j :: i <= j < n ==>
        j in p.types && p.types[j] == IntOr(b, ArmorTypeKey(env, j))
        && j in p.techs && p.techs[j] == IntOr(b, ArmorTypeKey(env, j))
        && j in p.bars && p.bars[j] == IntOr(b, BarRatingKey(env, j)))
      && (forall j :: j in acc.types && !(i <= j < n) ==> j in p.types && p.types[j] == acc.types[j])
      && (forall j :: j in acc.techs && !(i <= j < n) ==> j in p.techs && p.techs[j] == acc.techs[j])
      && (forall j :: j in acc.bars && !(i <= j < n) ==> j in p.bars && p.bars[j] == acc.bars[j])
    decreases n - i
  {
    if i < n {
      var code := FirstInt(b, ArmorTypeKey(env, i)).value;
      var bar := FirstInt(b, BarRatingKey(env, i)).value;
      PatchworkLoopValues(b, env, i + 1, n, Patch(acc.types[i := code], acc.techs[i := code], acc.bars[i := bar]));
    }
  }

  // ------------------------------------------------------------ errors, by stage

  lemma IdentityFaults(b: Block, v: VehicleRecord)
    requires WellTyped(b)
    ensures LoadIdentity(b, v).Failure? <==> "Name" !in b
    ensures LoadIdentity(b, v).Failure? ==> LoadIdentity(b, v).error == MissingName
  {
  }

  lemma MotionFaults(b: Block, env: Env, v: VehicleRecord)
    requires WellTyped(b)
    ensures LoadMotion(b, env, v).Failure? <==>
      "motion_type" !in b || env.getMode(TextOr(b, "motion_type")) == NoneMode
    ensures LoadMotion(b, env, v).Failure? ==>
      LoadMotion(b, env, v).error == (if "motion_type" !in b then MissingMovement else InvalidMovement(TextOr(b, "motion_type")))
  {
  }

  lemma PowerPlantFaults(b: Block, env: Env, v: VehicleRecord)
    requires WellTyped(b)
    ensures LoadPowerPlant(b, env, v).Failure? <==> "cruiseMP" !in b
    ensures LoadPowerPlant(b, env, v).Failure? ==> LoadPowerPlant(b, env, v).error == MissingCruiseMP
  {
  }

  lemma BasicsFaults(b: Block, env: Env, v: VehicleRecord)
    requires WellTyped(b)
    ensures LoadBasics(b, env, v).Failure? <==>
      "Name" !in b || "tonnage" !in b || "motion_type" !in b
      || env.getMode(TextOr(b, "motion_type")) == NoneMode || "cruiseMP" !in b
    ensures LoadBasics(b, env, v).Failure? ==>
      LoadBasics(b, env, v).error == (
        if "Name" !in b then MissingName
        else if "tonnage" !in b then MissingWeight
        else if "motion_type" !in b then MissingMovement
        else if env.getMode(TextOr(b, "motion_type")) == NoneMode then InvalidMovement(TextOr(b, "motion_type"))
        else MissingCruiseMP)
    ensures LoadBasics(b, env, v).Success? ==> LoadBasics(b, env, v).value.hasNoTurret == v.hasNoTurret
  {
    IdentityFaults(b, v);
    if LoadIdentity(b, v).Success? {
      var v1 := LoadIdentity(b, v).value;
      if LoadTonnage(b, v1).Success? {
        var v2 := LoadTonnage(b, v1).value;
        MotionFaults(b, env, v2);
        if LoadMotion(b, env, v2).Success? {
          PowerPlantFaults(b, env, LoadMotion(b, env, v2).value);
        }
      }
    }
  }

  lemma ArmorFaults(b: Block)
    requires WellTyped(b)
    ensures ReadArmor(b).Failure? <==>
      "armor" !in b || (|IntsOr(b, "armor")| != 5 && |IntsOr(b, "armor")| != 6)
    ensures ReadArmor(b).Failure? ==>
      ReadArmor(b).error == (if "armor" !in b then MissingArmor else BadArmorLength)
    ensures ReadArmor(b).Success? ==> ReadArmor(b).value == IntsOr(b, "armor")
  {
  }

  lemma ArmorTypingFaults(b: Block, env: Env, v: VehicleRecord)
    requires WellTyped(b)
    ensures var fault := FirstUnreadable(b, env, 1, env.locations(v.hasNoTurret));
      (LoadArmorTyping(b, env, v).Failure? <==>
        (IsPatchwork(b) && fault.Some?) || (!IsPatchwork(b) && "barrating" !in b))
      && (LoadArmorTyping(b, env, v).Failure? ==>
            LoadArmorTyping(b, env, v).error == (if IsPatchwork(b) then fault.value else MissingBarRating))
  {
    PatchworkLoopFaults(b, env, 1, env.locations(v.hasNoTurret), PatchOf(v));
  }

  lemma TechRatingsFaults(b: Block, v: VehicleRecord)
    requires WellTyped(b)
    ensures LoadTechRatings(b, v).Failure? <==> "structural_tech_rating" !in b
    ensures LoadTechRatings(b, v).Failure? ==> LoadTechRatings(b, v).error == MissingStructuralTechRating
  {
  }

  /** On a well-typed block a load fails exactly when the flat cascade of
      checks finds an error, and with that error: the required fields are
      checked in the loader's order and the first one missing is reported. */
  lemma LoadVerdict(b: Block, env: Env)
    requires WellTyped(b)
    ensures Load(b, env).Failure? <==> Verdict(b, env).Some?
    ensures Load(b, env).Failure? ==> Load(b, env).error == Verdict(b, env).value
  {
    BasicsFaults(b, env, Initial);
    if LoadBasics(b, env, Initial).Success? {
      var v5 := LoadBasics(b, env, Initial).value;
      ArmorFaults(b);
      if ReadArmor(b).Success? {
        var armor := ReadArmor(b).value;
        var v6 := ApplyArmor(v5, armor);
        ArmorTypingFaults(b, env, v6);
        if LoadArmorTyping(b, env, v6).Success? {
          TechRatingsFaults(b, LoadArmorTyping(b, env, v6).value);
        }
      }
    }
  }

  /** What an error says about the block: a required field that is absent,
      a movement type getMode rejects, an armor list of the wrong length. An
      accessor failure carries no claim. */
  predicate Justified(b: Block, env: Env, e: LoadError) {
    match e
    case MissingName => "Name" !in b
    case MissingWeight => "tonnage" !in b
    case MissingMovement => "motion_type" !in b
    case InvalidMovement(motion) => FirstText(b, "motion_type") == Some(motion) && env.getMode(motion) == NoneMode
    case MissingCruiseMP => "cruiseMP" !in b
    case MissingArmor => "armor" !in b
    case BadArmorLength =>
      AllInts(b, "armor").Some? && |AllInts(b, "armor").value| != 5 && |AllInts(b, "armor").value| != 6
    case MissingBarRating => !IsPatchwork(b) && "barrating" !in b
    case MissingStructuralTechRating => "structural_tech_rating" !in b
    case Unreadable(_) => true
  }

  lemma BasicsErrorsJustified(b: Block, env: Env, v: VehicleRecord)
    ensures LoadBasics(b, env, v).Failure? ==> Justified(b, env, LoadBasics(b, env, v).error)
  {
    if LoadIdentity(b, v).Success? {
      var v1 := LoadIdentity(b, v).value;
      if LoadTonnage(b, v1).Success? {
        var v2 := LoadTonnage(b, v1).value;
        if LoadMotion(b, env, v2).Success? {
          var v3 := LoadMotion(b, env, v2).value;
          assert LoadPowerPlant(b, env, v3).Failure? ==> Justified(b, env, LoadPowerPlant(b, env, v3).error);
        }
      }
    }
  }

  lemma ArmorTypingErrorsJustified(b: Block, env: Env, v: VehicleRecord)
    ensures LoadArmorTyping(b, env, v).Failure? ==> Justified(b, env, LoadArmorTyping(b, env, v).error)
  {
    PatchworkLoopFaults(b, env, 1, env.locations(v.hasNoTurret), PatchOf(v));
    FirstUnreadableIsAccessorFailure(b, env, 1, env.locations(v.hasNoTurret));
  }

  /** Whatever the block, the error a load reports is borne out by the block. */
  lemma LoadErrorsJustified(b: Block, env: Env)
    ensures Load(b, env).Failure? ==> Justified(b, env, Load(b, env).error)
  {
    BasicsErrorsJustified(b, env, Initial);
    if LoadBasics(b, env, Initial).Success? && ReadArmor(b).Success? {
      var v6 := ApplyArmor(LoadBasics(b, env, Initial).value, ReadArmor(b).value);
      ArmorTypingErrorsJustified(b, env, v6);
    }
  }

  // --------------------------------------------------- what a successful load writes

  /** The armor points by location: 0 for the body, then the "armor" list. */
  function ArmorTable(a: seq<int32>): map<int, int32> {
    map loc | 0 <= loc <= |a| :: ArmorPoints(a, loc)
  }

  function ArmorPoints(a: seq<int32>, loc: int): int32
    requires 0 <= loc <= |a|
  {
    if loc == LocBody then 0 else a[loc - 1]
  }

  /** The patchwork armor codes, for every location after the body. */
  function ArmorTypeTable(b: Block, env: Env, n: int): map<int, int32> {
    map loc | 1 <= loc < n :: IntOr(b, ArmorTypeKey(env, loc))
  }

  /** The patchwork BAR ratings, for every location after the body. */
  function BarRatingTable(b: Block, env: Env, n: int): map<int, int32> {
    map loc | 1 <= loc < n :: IntOr(b, BarRatingKey(env, loc))
  }

  /** The fields read before the armor: identity, tonnage, movement, power
      plant and structure, from the block, over the freshly built entity. */
  function ExpectedBasics(b: Block, env: Env): VehicleRecord {
    var weight := RealOr(b, "tonnage");
    var mode := env.getMode(TextOr(b, "motion_type"));
    var cruiseMP := IntOr(b, "cruiseMP");
    var engineCode := if "engine_type" in b then IntOr(b, "engine_type") else Fusion;
    Initial.(
      chassis := TextOr(b, "Name"),
      model := if "Model" in b && TextOr(b, "Model") != Null then TextOr(b, "Model") else Chars(""),
      source := if "source" in b then Some(TextOr(b, "source")) else None,
      weight := weight,
      movementMode := mode,
      fuelTonnage := if "fuel" in b then Some(RealOr(b, "fuel")) else None,
      engine := Some(Engine(EngineRating(cruiseMP, weight, env.suspensionFactor(mode, weight)),
                            env.translateEngineCode(engineCode), SupportEngineFlags)),
      originalWalkMP := cruiseMP,
      structureType := if "internal_type" in b then IntOr(b, "internal_type") else StructureStandard)
  }

  /** Then the armor: the turret flags, the points by location, and either the
      entity-wide typing or the per-location patchwork tables. */
  function ExpectedArmored(b: Block, env: Env): VehicleRecord {
    var armor := IntsOr(b, "armor");
    var n := env.locations(|armor| == 5);
    var patchwork := IsPatchwork(b);
    ExpectedBasics(b, env).(
      hasNoTurret := |armor| == 5,
      hasNoDualTurret := true,
      armor := ArmorTable(armor),
      armorType := if patchwork then None
                   else Some(if "armor_type" in b then IntOr(b, "armor_type") else ArmorStandard),
      armorTechLevel := if patchwork || "armor_tech" !in b then None else Some(IntOr(b, "armor_tech")),
      barRating := if patchwork then None else Some(IntOr(b, "barrating")),
      armorTypeAt := if patchwork then ArmorTypeTable(b, env, n) else map[],
      armorTechLevelAt := if patchwork then ArmorTypeTable(b, env, n) else map[],
      barRatingAt := if patchwork then BarRatingTable(b, env, n) else map[])
  }

  /** The entity a successful load produces: then the tech ratings, the
      equipment of every location, and the omni flag. */
  function Expected(b: Block, env: Env): VehicleRecord {
    ExpectedArmored(b, env).(
      structuralTechRating := Some(IntOr(b, "structural_tech_rating")),
      armorTechRating := if "armor_tech_rating" in b then Some(IntOr(b, "armor_tech_rating")) else None,
      engineTechRating := if "engine_tech_rating" in b then Some(IntOr(b, "engine_tech_rating")) else None,
      omni := "omni" in b,
      equipment := EquipmentOrder(|IntsOr(b, "armor")| == 6))
  }

  lemma BasicsMatch(b: Block, env: Env, v5: VehicleRecord)
    requires LoadBasics(b, env, Initial) == Success(v5)
    ensures v5 == ExpectedBasics(b, env)
  {
  }

  /** Initializing the slots of the full armor list over no armor gives the armor table. */
  lemma ArmorSlots(a: seq<int32>)
    ensures map[] + Slots(FullArmor(a)) == ArmorTable(a)
  {
    assert map[] + Slots(FullArmor(a)) == Slots(FullArmor(a));
  }

  /** A patchwork loop from the body's successor over empty tables yields the
      patchwork tables. */
  lemma PatchworkTables(b: Block, env: Env, n: int)
    requires PatchworkLoop(b, env, 1, n, Patch(map[], map[], map[])).Success?
    ensures PatchworkLoop(b, env, 1, n, Patch(map[], map[], map[])).value
      == Patch(ArmorTypeTable(b, env, n), ArmorTypeTable(b, env, n), BarRatingTable(b, env, n))
  {
    var acc := Patch(map[], map[], map[]);
    PatchworkLoopKeys(b, env, 1, n, acc);
    PatchworkLoopValues(b, env, 1, n, acc);
    var p := PatchworkLoop(b, env, 1, n, acc).value;
    assert p.types == ArmorTypeTable(b, env, n);
    assert p.techs == ArmorTypeTable(b, env, n);
    assert p.bars == BarRatingTable(b, env, n);
  }

  lemma ArmorMatch(b: Block, env: Env, armor: seq<int32>, v7: VehicleRecord)
    requires ReadArmor(b) == Success(armor)
    requires LoadArmorTyping(b, env, ApplyArmor(ExpectedBasics(b, env), armor)) == Success(v7)
    ensures v7 == ExpectedArmored(b, env)
  {
    ArmorSlots(armor);
    if IsPatchwork(b) {
      PatchworkTables(b, env, env.locations(|armor| == 5));
    }
  }

  lemma RatingsMatch(b: Block, env: Env, v8: VehicleRecord)
    requires LoadTechRatings(b, ExpectedArmored(b, env)) == Success(v8)
    ensures ApplyOmni(b, ApplyEquipment(v8, |IntsOr(b, "armor")| == 6)) == Expected(b, env)
  {
  }

  /** A successful load yields exactly the entity Expected describes. */
  lemma LoadMatchesExpected(b: Block, env: Env)
    requires Load(b, env).Success?
    ensures Load(b, env).value == Expected(b, env)
  {
    var v1, v2, v3, v4, v5, armor, v7, v8 := Stages(b, env);
    BasicsMatch(b, env, v5);
    ArmorMatch(b, env, armor, v7);
    RatingsMatch(b, env, v8);
  }

  /** The records a successful load passes from stage to stage. */
  lemma Stages(b: Block, env: Env) returns (v1: VehicleRecord, v2: VehicleRecord, v3: VehicleRecord,
                                            v4: VehicleRecord, v5: VehicleRecord, armor: seq<int32>,
                                            v7: VehicleRecord, v8: VehicleRecord)
    requires Load(b, env).Success?
    ensures LoadIdentity(b, Initial) == Success(v1) && LoadTonnage(b, v1) == Success(v2)
    ensures LoadMotion(b, env, v2) == Success(v3) && LoadPowerPlant(b, env, v3) == Success(v4)
    ensures LoadStructure(b, v4) == Success(v5) && LoadBasics(b, env, Initial) == Success(v5)
    ensures ReadArmor(b) == Success(armor)
    ensures LoadArmorTyping(b, env, ApplyArmor(v5, armor)) == Success(v7)
    ensures LoadTechRatings(b, v7) == Success(v8)
    ensures Load(b, env).value == ApplyOmni(b, ApplyEquipment(v8, |armor| == 6))
  {
    v1 := LoadIdentity(b, Initial).value;
    v2 := LoadTonnage(b, v1).value;
    v3 := LoadMotion(b, env, v2).value;
    v4 := LoadPowerPlant(b, env, v3).value;
    v5 := LoadStructure(b, v4).value;
    armor := ReadArmor(b).value;
    v7 := LoadArmorTyping(b, env, ApplyArmor(v5, armor)).value;
    v8 := LoadTechRatings(b, v7).value;
  }

  /** The chassis is the "Name" value; the model is the "Model" value unless it
      is absent or null, and then empty; the source is set only when present. */
  lemma LoadedIdentity(b: Block, env: Env)
    requires Load(b, env).Success?
    ensures var v := Load(b, env).value;
      FirstText(b, "Name") == Some(v.chassis)
      && v.model == (if "Model" in b && TextOr(b, "Model") != Null then TextOr(b, "Model") else Chars(""))
      && v.source == (if "source" in b then Some(TextOr(b, "source")) else None)
  {
    LoadMatchesExpected(b, env);
  }

  /** The weight is the "tonnage" value and the movement mode the one getMode
      gives the "motion_type" value, which is never NONE. */
  lemma LoadedMovement(b: Block, env: Env)
    requires Load(b, env).Success?
    ensures var v := Load(b, env).value;
      FirstReal(b, "tonnage") == Some(v.weight)
      && FirstText(b, "motion_type").Some?
      && v.movementMode == env.getMode(TextOr(b, "motion_type")) != NoneMode
  {
    LoadMatchesExpected(b, env);
  }

  /** The walk MP is the raw "cruiseMP" value; the engine is a support-vehicle
      tank engine of the translated "engine_type" code (FUSION when absent) and
      of the rounded-up rating; fuel is set only when present. */
  lemma LoadedPowerPlant(b: Block, env: Env)
    requires Load(b, env).Success?
    ensures var v := Load(b, env).value;
      var raw := RawEngineRating(v.originalWalkMP, v.weight, env.suspensionFactor(v.movementMode, v.weight));
      FirstInt(b, "cruiseMP") == Some(v.originalWalkMP)
      && v.fuelTonnage == (if "fuel" in b then Some(RealOr(b, "fuel")) else None)
      && v.engine.Some?
      && v.engine.value.flags == {TankEngine, SupportVeeEngine}
      && v.engine.value.engineType
         == env.translateEngineCode(if "engine_type" in b then IntOr(b, "engine_type") else Fusion)
      && v.engine.value.rating == EngineRating(v.originalWalkMP, v.weight, env.suspensionFactor(v.movementMode, v.weight))
      && (0 <= raw <= MaxRoundable ==>
           v.engine.value.rating % 5 == 0 && raw <= v.engine.value.rating < raw + 5)
  {
    LoadMatchesExpected(b, env);
  }

  /** The structure type is the "internal_type" value, standard when absent. */
  lemma LoadedStructure(b: Block, env: Env)
    requires Load(b, env).Success?
    ensures Load(b, env).value.structureType ==
      if "internal_type" in b then IntOr(b, "internal_type") else StructureStandard
  {
    LoadMatchesExpected(b, env);
  }

  /** The "armor" list has 5 or 6 entries; with 5 the vehicle has no turret, and
      never a dual turret; the body gets 0 armor points and location i (from 1)
      the list's i-th value; no other location gets armor. */
  lemma LoadedArmor(b: Block, env: Env)
    requires Load(b, env).Success?
    ensures var v := Load(b, env).value;
      var a := IntsOr(b, "armor");
      AllInts(b, "armor") == Some(a)
      && (|a| == 5 || |a| == 6)
      && v.hasNoTurret == (|a| == 5) && v.hasNoDualTurret
      && (forall loc :: loc in v.armor <==> 0 <= loc <= |a|)
      && v.armor[LocBody] == 0
      && (forall loc :: 1 <= loc <= |a| ==> v.armor[loc] == a[loc - 1])
  {
    LoadMatchesExpected(b, env);
  }

  /** Equipment is loaded for the six fixed locations and, exactly when the
      vehicle has a turret, for the turret; "omni" marks an omni vehicle. */
  lemma LoadedEquipment(b: Block, env: Env)
    requires Load(b, env).Success?
    ensures var v := Load(b, env).value;
      v.equipment == EquipmentOrder(!v.hasNoTurret) && v.omni == ("omni" in b)
  {
    LoadMatchesExpected(b, env);
  }

  /** Uniform armor: the entity-wide type is "armor_type", standard when
      absent; the tech level is "armor_tech" when present; the BAR rating is
      "barrating"; no location is given its own. */
  lemma LoadedUniformArmor(b: Block, env: Env)
    requires Load(b, env).Success? && !IsPatchwork(b)
    ensures var v := Load(b, env).value;
      v.armorType == Some(if "armor_type" in b then IntOr(b, "armor_type") else ArmorStandard)
      && v.armorTechLevel == (if "armor_tech" in b then Some(IntOr(b, "armor_tech")) else None)
      && v.barRating == Some(IntOr(b, "barrating"))
      && v.armorTypeAt == map[] && v.armorTechLevelAt == map[] && v.barRatingAt == map[]
  {
    LoadMatchesExpected(b, env);
  }

  /** Patchwork armor: no entity-wide type, tech level or BAR rating; each
      location after the body gets its "<location>_armor_type" value as both
      armor type and armor tech level, and its "<location>_barrating" value. */
  lemma LoadedPatchworkArmor(b: Block, env: Env)
    requires Load(b, env).Success? && IsPatchwork(b)
    ensures var v := Load(b, env).value;
      var n := env.locations(v.hasNoTurret);
      v.armorType.None? && v.armorTechLevel.None? && v.barRating.None?
      && (forall loc :: loc in v.armorTypeAt <==> 1 <= loc < n)
      && (forall loc :: 1 <= loc < n ==>
            loc in v.armorTechLevelAt && loc in v.barRatingAt
            && v.armorTypeAt[loc] == IntOr(b, ArmorTypeKey(env, loc))
            && v.armorTechLevelAt[loc] == IntOr(b, ArmorTypeKey(env, loc))
            && v.barRatingAt[loc] == IntOr(b, BarRatingKey(env, loc)))
  {
    LoadMatchesExpected(b, env);
  }

  /** The structural tech rating is "structural_tech_rating"; the armor and
      engine tech ratings are set only when present. */
  lemma LoadedTechRatings(b: Block, env: Env)
    requires Load(b, env).Success?
    ensures var v := Load(b, env).value;
      FirstInt(b, "structural_tech_rating") == v.structuralTechRating
      && v.armorTechRating == (if "armor_tech_rating" in b then Some(IntOr(b, "armor_tech_rating")) else None)
      && v.engineTechRating == (if "engine_tech_rating" in b then Some(IntOr(b, "engine_tech_rating")) else None)
  {
    LoadMatchesExpected(b, env);
  }
}
