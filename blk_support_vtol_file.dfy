/** BLKSupportVTOLFile: builds a SupportVTOL from a parsed BLK data block.
    `Load` is the reference definition of what a load produces; `GetEntity`
    builds the entity step by step and is proved to agree with it. */
module BLKSupportVTOLFile {
  import opened Wrappers
  import opened JavaInt
  import opened BuildingBlock
  import opened SupportVTOLEntity

  /** BLKFile.FUSION, the engine code used when "engine_type" is absent. */
  const Fusion: int32 := 0

  /** What the loader takes from code outside this file. */
  datatype Env = Env(
    /** EntityMovementMode.getMode */
    getMode: JString -> MovementMode,
    /** SupportVTOL.getSuspensionFactor, given the movement mode and weight already set */
    suspensionFactor: (MovementMode, real) -> int32,
    /** SupportVTOL.locations, given the no-turret flag already set */
    locations: bool -> int,
    /** Entity.getLocationName */
    locationName: int -> string,
    /** BLKFile.translateEngineCode */
    translateEngineCode: int32 -> int)

  /** Why a load fails. Unreadable(key) is a failure of the data block's own
      accessor on `key` (absent on a read the loader does not guard, no
      value, or a value of another kind); the loader gives it no message. */
  datatype LoadError =
    | MissingName
    | MissingWeight
    | MissingMovement
    | InvalidMovement(motion: JString)
    | MissingCruiseMP
    | MissingArmor
    | BadArmorLength
    | MissingBarRating
    | MissingStructuralTechRating
    | Unreadable(key: string)

  /** The message of the EntityLoadingException the loader throws. */
  function Message(e: LoadError): (m: Option<string>)
    ensures m.None? <==> e.Unreadable?
    ensures e.InvalidMovement? ==> m == Some("Invalid movement type: " + Render(e.motion))
  {
    match e
    case MissingName => Some("Could not find name block.")
    case MissingWeight => Some("Could not find weight block.")
    case MissingMovement => Some("Could not find movement block.")
    case InvalidMovement(s) => Some("Invalid movement type: " + Render(s))
    case MissingCruiseMP => Some("Could not find cruiseMP block.")
    case MissingArmor => Some("Could not find armor block.")
    case BadArmorLength => Some("Incorrect armor array length")
    case MissingBarRating => Some("Could not find barrating block.")
    case MissingStructuralTechRating => Some("Could not find structural_tech_rating block!")
    case Unreadable(_) => None
  }

  // ---------------------------------------------------------------- VGL facing

  /** The default facing (0..5, clockwise from the front) of a vehicular
      grenade launcher mounted at `location`. */
  function DefaultVGLFacing(location: int, rearFacing: bool): (f: int)
    ensures 0 <= f <= 5
  {
    if location == LocRight then (if rearFacing then 2 else 1)
    else if location == LocRear then 3
    else if location == LocLeft then (if rearFacing then 4 else 5)
    else 0
  }

  /** The location on the other side of the vehicle's long axis. */
  function MirrorLocation(location: int): int {
    if location == LocRight then LocLeft else if location == LocLeft then LocRight else location
  }

  /** The defaults are symmetric about the long axis: a launcher on the other
      side faces the mirror image of the hex side (facing f mirrors to 6 - f). */
  lemma VGLFacingMirror(location: int, rearFacing: bool)
    ensures DefaultVGLFacing(MirrorLocation(location), rearFacing)
      == (6 - DefaultVGLFacing(location, rearFacing)) % 6
  {
  }

  /** Only side mounts depend on the rear-facing flag, which turns them one hex
      side further back: clockwise on the right, counter-clockwise on the left. */
  lemma VGLFacingRear(location: int)
    ensures location == LocRight ==> DefaultVGLFacing(location, true) == DefaultVGLFacing(location, false) + 1
    ensures location == LocLeft ==> DefaultVGLFacing(location, true) == DefaultVGLFacing(location, false) - 1
    ensures location != LocRight && location != LocLeft ==>
      DefaultVGLFacing(location, true) == DefaultVGLFacing(location, false)
  {
  }

  // ------------------------------------------------------------- engine rating

  /** The largest raw rating that rounds up without leaving the int range. */
  const MaxRoundable: int := 2147483645

  /** `if (r % 5 > 0) r += 5 - r % 5` on a Java int. */
  function RoundUpToFive(x: int32): (r: int32)
    ensures 0 <= x <= MaxRoundable ==> r % 5 == 0 && x <= r < x + 5
    ensures x < 0 ==> r == x
    ensures x > MaxRoundable ==> r == -2147483646
  {
    var rem := RemFive(x);
    if rem > 0 then Wrap(x + (5 - rem)) else x
  }

  /** In range, the rounded rating is the least multiple of 5 not below the raw one. */
  lemma RoundUpToFiveLeast(x: int32, m: int)
    requires 0 <= x <= MaxRoundable && m % 5 == 0 && x <= m
    ensures RoundUpToFive(x) <= m
  {
  }

  /** Rounding a rounded rating changes nothing, whatever the input. */
  lemma RoundUpToFiveIdempotent(x: int32)
    ensures RoundUpToFive(RoundUpToFive(x)) == RoundUpToFive(x)
  {
  }

  /** `cruiseMP * (int) weight - suspensionFactor` on Java ints. */
  function RawEngineRating(cruiseMP: int32, weight: real, suspension: int32): int32 {
    Wrap(Wrap(cruiseMP * TruncateToInt(weight)) - suspension)
  }

  function EngineRating(cruiseMP: int32, weight: real, suspension: int32): int32 {
    RoundUpToFive(RawEngineRating(cruiseMP, weight, suspension))
  }

  const SupportEngineFlags: set<EngineFlag> := {TankEngine, SupportVeeEngine}

  // ---------------------------------------------------------------- field reads

  function TextAt(b: Block, key: string): Result<JString, LoadError> {
    match FirstText(b, key)
    case Some(s) => Success(s)
    case None => Failure(Unreadable(key))
  }

  function IntAt(b: Block, key: string): Result<int32, LoadError> {
    match FirstInt(b, key)
    case Some(n) => Success(n)
    case None => Failure(Unreadable(key))
  }

  function RealAt(b: Block, key: string): Result<real, LoadError> {
    match FirstReal(b, key)
    case Some(d) => Success(d)
    case None => Failure(Unreadable(key))
  }

  function IntsAt(b: Block, key: string): Result<seq<int32>, LoadError> {
    match AllInts(b, key)
    case Some(s) => Success(s)
    case None => Failure(Unreadable(key))
  }

  /** An optional field: read only when it exists. */
  function OptionalText(b: Block, key: string): Result<Option<JString>, LoadError> {
    if key in b then var s :- TextAt(b, key); Success(Some(s)) else Success(None)
  }

  function OptionalInt(b: Block, key: string): Result<Option<int32>, LoadError> {
    if key in b then var n :- IntAt(b, key); Success(Some(n)) else Success(None)
  }

  function OptionalReal(b: Block, key: string): Result<Option<real>, LoadError> {
    if key in b then var d :- RealAt(b, key); Success(Some(d)) else Success(None)
  }

  // ------------------------------------------------- the load, stage by stage
  // Each stage takes the entity as the previous stages left it and returns it
  // with the attributes that stage writes, or the error that stops the load.

  function ModelOrEmpty(m: Option<JString>): JString {
    if m.Some? && m.value.Chars? then m.value else Chars("")
  }

  function LoadIdentity(b: Block, v: VehicleRecord): Result<VehicleRecord, LoadError> {
    if "Name" !in b then Failure(MissingName)
    else
      var chassis :- TextAt(b, "Name");
      var model :- OptionalText(b, "Model");
      var source :- OptionalText(b, "source");
      Success(v.(chassis := chassis, model := ModelOrEmpty(model), source := Assign(v.source, source)))
  }

  function LoadTonnage(b: Block, v: VehicleRecord): Result<VehicleRecord, LoadError> {
    if "tonnage" !in b then Failure(MissingWeight)
    else
      var weight :- RealAt(b, "tonnage");
      Success(v.(weight := weight))
  }

  function LoadMotion(b: Block, env: Env, v: VehicleRecord): Result<VehicleRecord, LoadError> {
    if "motion_type" !in b then Failure(MissingMovement)
    else
      var motion :- TextAt(b, "motion_type");
      var mode := env.getMode(motion);
      if mode == NoneMode then Failure(InvalidMovement(motion)) else Success(v.(movementMode := mode))
  }

  function LoadPowerPlant(b: Block, env: Env, v: VehicleRecord): Result<VehicleRecord, LoadError> {
    var engineType :- OptionalInt(b, "engine_type");
    var engineCode := if engineType.Some? then engineType.value else Fusion;
    var fuel :- OptionalReal(b, "fuel");
    if "cruiseMP" !in b then Failure(MissingCruiseMP)
    else
      var cruiseMP :- IntAt(b, "cruiseMP");
      var rating := EngineRating(cruiseMP, v.weight, env.suspensionFactor(v.movementMode, v.weight));
      var engine := Engine(rating, env.translateEngineCode(engineCode), SupportEngineFlags);
      Success(v.(fuelTonnage := Assign(v.fuelTonnage, fuel), engine := Some(engine), originalWalkMP := cruiseMP))
  }

  function LoadStructure(b: Block, v: VehicleRecord): Result<VehicleRecord, LoadError> {
    var internalType :- OptionalInt(b, "internal_type");
    Success(v.(structureType := if internalType.Some? then internalType.value else StructureStandard))
  }

  /** The armor values, checked for length. */
  function ReadArmor(b: Block): Result<seq<int32>, LoadError> {
    if "armor" !in b then Failure(MissingArmor)
    else
      var armor :- IntsAt(b, "armor");
      if |armor| != 5 && |armor| != 6 then Failure(BadArmorLength) else Success(armor)
  }

  /** The armor array with the body slot added in front. */
  function FullArmor(armor: seq<int32>): seq<int32> {
    [0] + armor
  }

  /** The armor points by location that initializing each slot of `full` in turn writes. */
  function Slots(full: seq<int32>): map<int, int32> {
    map i | 0 <= i < |full| :: full[i]
  }

  function ApplyArmor(v: VehicleRecord, armor: seq<int32>): VehicleRecord {
    v.(hasNoTurret := |armor| == 5, hasNoDualTurret := true, armor := v.armor + Slots(FullArmor(armor)))
  }

  /** Per-location armor type, tech level and BAR rating (patchwork armor). */
  datatype Patch = Patch(types: map<int, int32>, techs: map<int, int32>, bars: map<int, int32>)

  function PatchOf(v: VehicleRecord): Patch {
    Patch(v.armorTypeAt, v.armorTechLevelAt, v.barRatingAt)
  }

  function ArmorTypeKey(env: Env, loc: int): string {
    env.locationName(loc) + "_armor_type"
  }

  function BarRatingKey(env: Env, loc: int): string {
    env.locationName(loc) + "_barrating"
  }

  /** The patchwork loop over locations i .. n-1, from the per-location values
      `acc` written so far. The tech level comes from the "_armor_type" field. */
  function PatchworkLoop(b: Block, env: Env, i: int, n: int, acc: Patch): Result<Patch, LoadError>
    decreases n - i
  {
    if i >= n then Success(acc)
    else
      var armorCode :- IntAt(b, ArmorTypeKey(env, i));
      // the tech level is read from the same "_armor_type" field
      var bar :- IntAt(b, BarRatingKey(env, i));
      PatchworkLoop(b, env, i + 1, n,
        Patch(acc.types[i := armorCode], acc.techs[i := armorCode], acc.bars[i := bar]))
  }

  /** Patchwork armor: type, tech level and BAR rating per location, for
      every location after the body. */
  function LoadPatchwork(b: Block, env: Env, v: VehicleRecord): Result<VehicleRecord, LoadError> {
    var patch :- PatchworkLoop(b, env, 1, env.locations(v.hasNoTurret), PatchOf(v));
    Success(v.(armorTypeAt := patch.types, armorTechLevelAt := patch.techs, barRatingAt := patch.bars))
  }

  function LoadArmorTyping(b: Block, env: Env, v: VehicleRecord): Result<VehicleRecord, LoadError> {
    var armorTypeField :- OptionalInt(b, "armor_type");
    if armorTypeField == Some(ArmorPatchwork) then LoadPatchwork(b, env, v)
    else
      var armorType := if armorTypeField.Some? then armorTypeField.value else ArmorStandard;
      var armorTech :- OptionalInt(b, "armor_tech");
      if "barrating" !in b then Failure(MissingBarRating)
      else
        var bar :- IntAt(b, "barrating");
        Success(v.(armorType := Some(armorType), armorTechLevel := Assign(v.armorTechLevel, armorTech),
                   barRating := Some(bar)))
  }

  function LoadTechRatings(b: Block, v: VehicleRecord): Result<VehicleRecord, LoadError> {
    if "structural_tech_rating" !in b then Failure(MissingStructuralTechRating)
    else
      var structural :- IntAt(b, "structural_tech_rating");
      var armorTR :- OptionalInt(b, "armor_tech_rating");
      var engineTR :- OptionalInt(b, "engine_tech_rating");
      Success(v.(structuralTechRating := Some(structural),
                 armorTechRating := Assign(v.armorTechRating, armorTR),
                 engineTechRating := Assign(v.engineTechRating, engineTR)))
  }

  /** The locations of the vehicle: body, front, right, left, rear, rotor and,
      with a turret, the turret. */
  predicate IsVehicleLocation(loc: int, turret: bool) {
    LocBody <= loc <= LocRotor || (turret && loc == LocTurret)
  }

  /** The equipment blocks loaded, in order; the turret's only with a turret. */
  function EquipmentOrder(turret: bool): seq<EquipmentBlock> {
    var base := [EquipmentBlock("Front", LocFront), EquipmentBlock("Right", LocRight),
                 EquipmentBlock("Left", LocLeft), EquipmentBlock("Rear", LocRear),
                 EquipmentBlock("Body", LocBody), EquipmentBlock("Rotor", LocRotor)];
    if turret then base + [EquipmentBlock("Turret", LocTurret)] else base
  }

  /** Equipment is loaded for vehicle locations only, the turret's only with a turret. */
  lemma EquipmentOrderWithinVehicle(turret: bool)
    ensures forall i :: 0 <= i < |EquipmentOrder(turret)| ==>
      IsVehicleLocation(EquipmentOrder(turret)[i].location, turret)
  {
  }

  /** Every location of the vehicle has its equipment loaded. */
  lemma EquipmentOrderCoversVehicle(turret: bool)
    ensures forall loc :: IsVehicleLocation(loc, turret) ==>
      exists i :: 0 <= i < |EquipmentOrder(turret)| && EquipmentOrder(turret)[i].location == loc
  {
    var s := EquipmentOrder(turret);
    forall loc | IsVehicleLocation(loc, turret)
      ensures exists i :: 0 <= i < |s| && s[i].location == loc
    {
      var i := [4, 0, 1, 2, 3, 5, 6][loc];
      assert s[i].location == loc;
    }
  }

  /** No location has its equipment loaded twice. */
  lemma EquipmentOrderDistinct(turret: bool)
    ensures forall i, j :: 0 <= i < j < |EquipmentOrder(turret)| ==>
      EquipmentOrder(turret)[i].location != EquipmentOrder(turret)[j].location
  {
    var s := EquipmentOrder(turret);
    forall i, j | 0 <= i < j < |s|
      ensures s[i].location != s[j].location
    {
      assert s[i].location == [1, 2, 3, 4, 0, 5, 6][i];
      assert s[j].location == [1, 2, 3, 4, 0, 5, 6][j];
    }
  }

  function ApplyEquipment(v: VehicleRecord, turret: bool): VehicleRecord {
    v.(equipment := v.equipment + EquipmentOrder(turret))
  }

  function ApplyOmni(b: Block, v: VehicleRecord): VehicleRecord {
    if "omni" in b then v.(omni := true) else v
  }

  /** Identity, tonnage, movement, power plant and structure, in that order. */
  function LoadBasics(b: Block, env: Env, v: VehicleRecord): Result<VehicleRecord, LoadError> {
    var v1 :- LoadIdentity(b, v);
    var v2 :- LoadTonnage(b, v1);
    var v3 :- LoadMotion(b, env, v2);
    var v4 :- LoadPowerPlant(b, env, v3);
    LoadStructure(b, v4)
  }

  /** The reference definition of a load: the entity built, or the first error. */
  function Load(b: Block, env: Env): Result<VehicleRecord, LoadError> {
    var v5 :- LoadBasics(b, env, Initial);
    var armor :- ReadArmor(b);
    var v6 := ApplyArmor(v5, armor);
    var v7 :- LoadArmorTyping(b, env, v6);
    var v8 :- LoadTechRatings(b, v7);
    Success(ApplyOmni(b, ApplyEquipment(v8, |armor| == 6)))
  }

  // ------------------------------------------------------- the imperative build
  // Each Build method performs one stage on the entity through its setters and
  // returns what the corresponding Load function computes.

  method BuildIdentity(t: SupportVTOL, b: Block) returns (r: Result<VehicleRecord, LoadError>)
    modifies t`chassis, t`model, t`source
    ensures r == LoadIdentity(b, old(t.Snapshot()))
    ensures r.Success? ==> t.Snapshot() == r.value
  {
    if "Name" !in b {
      return Failure(MissingName);
    }
    var chassis :- TextAt(b, "Name");
    t.SetChassis(chassis);
    var model :- OptionalText(b, "Model");
    if model.Some? && model.value.Chars? {
      t.SetModel(model.value);
    } else {
      t.SetModel(Chars(""));
    }
    var source :- OptionalText(b, "source");
    if source.Some? {
      t.SetSource(source.value);
    }
    return Success(t.Snapshot());
  }

  method BuildTonnage(t: SupportVTOL, b: Block) returns (r: Result<VehicleRecord, LoadError>)
    modifies t`weight
    ensures r == LoadTonnage(b, old(t.Snapshot()))
    ensures r.Success? ==> t.Snapshot() == r.value
  {
    if "tonnage" !in b {
      return Failure(MissingWeight);
    }
    var weight :- RealAt(b, "tonnage");
    t.SetWeight(weight);
    return Success(t.Snapshot());
  }

  method BuildMotion(t: SupportVTOL, b: Block, env: Env) returns (r: Result<VehicleRecord, LoadError>)
    modifies t`movementMode
    ensures r == LoadMotion(b, env, old(t.Snapshot()))
    ensures r.Success? ==> t.Snapshot() == r.value
  {
    if "motion_type" !in b {
      return Failure(MissingMovement);
    }
    var motion :- TextAt(b, "motion_type");
    var mode := env.getMode(motion);
    if mode == NoneMode {
      return Failure(InvalidMovement(motion));
    }
    t.SetMovementMode(mode);
    return Success(t.Snapshot());
  }

  /** The engine rating: cruise MP times the truncated tonnage, less the
      suspension factor, rounded up to a multiple of 5, all in 32-bit arithmetic. */
  method ComputeEngineRating(cruiseMP: int32, weight: real, suspension: int32) returns (rating: int32)
    ensures rating == EngineRating(cruiseMP, weight, suspension)
    ensures 0 <= RawEngineRating(cruiseMP, weight, suspension) <= MaxRoundable ==>
      rating % 5 == 0 && RawEngineRating(cruiseMP, weight, suspension) <= rating
  {
    rating := Wrap(Wrap(cruiseMP * TruncateToInt(weight)) - suspension);
    if RemFive(rating) > 0 {
      rating := Wrap(rating + (5 - RemFive(rating)));
    }
  }

  method BuildPowerPlant(t: SupportVTOL, b: Block, env: Env) returns (r: Result<VehicleRecord, LoadError>)
    modifies t`fuelTonnage, t`engine, t`originalWalkMP
    ensures r == LoadPowerPlant(b, env, old(t.Snapshot()))
    ensures r.Success? ==> t.Snapshot() == r.value
  {
    var engineCode := Fusion;
    if "engine_type" in b {
      engineCode :- IntAt(b, "engine_type");
    }
    if "fuel" in b {
      var fuel :- RealAt(b, "fuel");
      t.SetFuelTonnage(fuel);
    }
    if "cruiseMP" !in b {
      return Failure(MissingCruiseMP);
    }
    var cruiseMP :- IntAt(b, "cruiseMP");
    var engineRating := ComputeEngineRating(cruiseMP, t.weight, env.suspensionFactor(t.movementMode, t.weight));
    t.SetEngine(Engine(engineRating, env.translateEngineCode(engineCode), SupportEngineFlags));
    t.SetOriginalWalkMP(cruiseMP);
    return Success(t.Snapshot());
  }

  method BuildStructure(t: SupportVTOL, b: Block) returns (r: Result<VehicleRecord, LoadError>)
    modifies t`structureType
    ensures r == LoadStructure(b, old(t.Snapshot()))
    ensures r.Success? ==> t.Snapshot() == r.value
  {
    if "internal_type" in b {
      var internalType :- IntAt(b, "internal_type");
      t.SetStructureType(internalType);
    } else {
      t.SetStructureType(StructureStandard);
    }
    return Success(t.Snapshot());
  }

  method BuildBasics(t: SupportVTOL, b: Block, env: Env) returns (r: Result<VehicleRecord, LoadError>)
    modifies t`chassis, t`model, t`source, t`weight, t`movementMode
    modifies t`fuelTonnage, t`engine, t`originalWalkMP, t`structureType
    ensures r == LoadBasics(b, env, old(t.Snapshot()))
    ensures r.Success? ==> t.Snapshot() == r.value
  {
    var v1 :- BuildIdentity(t, b);
    var v2 :- BuildTonnage(t, b);
    var v3 :- BuildMotion(t, b, env);
    var v4 :- BuildPowerPlant(t, b, env);
    r := BuildStructure(t, b);
  }

  /** `System.arraycopy(src, 0, dest, destPos, |src|)`. */
  method ArrayCopy(src: seq<int32>, dest: array<int32>, destPos: nat)
    requires destPos + |src| <= dest.Length
    modifies dest
    ensures dest[..] == old(dest[..destPos]) + src + old(dest[destPos + |src|..])
  {
    for i := 0 to |src|
      invariant forall k :: 0 <= k < dest.Length ==>
        dest[k] == if destPos <= k < destPos + i then src[k - destPos] else old(dest[k])
    {
      dest[destPos + i] := src[i];
    }
    assert dest[..] == old(dest[..destPos]) + src + old(dest[destPos + |src|..]) by {
      forall k | 0 <= k < dest.Length
        ensures dest[..][k] == (old(dest[..destPos]) + src + old(dest[destPos + |src|..]))[k]
      {
        if k < destPos {
        } else if k < destPos + |src| {
        } else {
        }
      }
    }
  }

  lemma SlotsSnoc(s: seq<int32>, v: int32)
    ensures Slots(s + [v]) == Slots(s)[|s| := v]
  {
    assert Slots(s + [v]).Keys == Slots(s)[|s| := v].Keys;
  }

  lemma UnionUpdate(m: map<int, int32>, n: map<int, int32>, k: int, v: int32)
    ensures (m + n)[k := v] == m + n[k := v]
  {
  }

  /** Initializes the armor of every location from `fullArmor`, slot by slot. */
  method InitializeAllArmor(t: SupportVTOL, fullArmor: array<int32>)
    modifies t`armor
    ensures t.Snapshot() == old(t.Snapshot()).(armor := old(t.armor) + Slots(fullArmor[..]))
  {
    for x := 0 to fullArmor.Length
      invariant t.Snapshot() == old(t.Snapshot()).(armor := old(t.armor) + Slots(fullArmor[..x]))
    {
      t.InitializeArmor(fullArmor[x], x);
      SlotsSnoc(fullArmor[..x], fullArmor[x]);
      assert fullArmor[..x + 1] == fullArmor[..x] + [fullArmor[x]];
      UnionUpdate(old(t.armor), Slots(fullArmor[..x]), x, fullArmor[x]);
    }
    assert fullArmor[..fullArmor.Length] == fullArmor[..];
  }

  method BuildArmor(t: SupportVTOL, b: Block) returns (r: Result<seq<int32>, LoadError>)
    modifies t`hasNoTurret, t`hasNoDualTurret, t`armor
    ensures r == ReadArmor(b)
    ensures r.Success? ==> t.Snapshot() == ApplyArmor(old(t.Snapshot()), r.value)
  {
    if "armor" !in b {
      return Failure(MissingArmor);
    }
    var armor :- IntsAt(b, "armor");
    if |armor| != 5 && |armor| != 6 {
      return Failure(BadArmorLength);
    }
    t.SetHasNoTurret(|armor| == 5);
    t.SetHasNoDualTurret(true);
    // add the body to the armor array
    var fullArmor := new int32[|armor| + 1];
    fullArmor[0] := 0;
    ArrayCopy(armor, fullArmor, 1);
    assert fullArmor[..] == FullArmor(armor);
    InitializeAllArmor(t, fullArmor);
    return Success(armor);
  }

  /** The patchwork loop: per-location armor type, tech level and BAR rating
      for every location after the body. */
  method BuildPatchwork(t: SupportVTOL, b: Block, env: Env) returns (r: Result<VehicleRecord, LoadError>)
    modifies t`armorTypeAt, t`armorTechLevelAt, t`barRatingAt
    ensures r == LoadPatchwork(b, env, old(t.Snapshot()))
    ensures r.Success? ==> t.Snapshot() == r.value
  {
    var n := env.locations(t.hasNoTurret);
    var i := 1;
    while i < n
      invariant PatchworkLoop(b, env, 1, n, old(PatchOf(t.Snapshot())))
             == PatchworkLoop(b, env, i, n, PatchOf(t.Snapshot()))
      invariant t.Snapshot() == old(t.Snapshot()).(
        armorTypeAt := t.armorTypeAt, armorTechLevelAt := t.armorTechLevelAt, barRatingAt := t.barRatingAt)
      decreases n - i
    {
      var armorCode :- IntAt(b, ArmorTypeKey(env, i));
      t.SetArmorTypeAt(armorCode, i);
      // the tech level is read from the same "_armor_type" field
      t.SetArmorTechLevelAt(armorCode, i);
      var bar :- IntAt(b, BarRatingKey(env, i));
      t.SetBARRatingAt(bar, i);
      i := i + 1;
    }
    return Success(t.Snapshot());
  }

  method BuildArmorTyping(t: SupportVTOL, b: Block, env: Env) returns (r: Result<VehicleRecord, LoadError>)
    modifies t`armorType, t`armorTechLevel, t`barRating, t`armorTypeAt, t`armorTechLevelAt, t`barRatingAt
    ensures r == LoadArmorTyping(b, env, old(t.Snapshot()))
    ensures r.Success? ==> t.Snapshot() == r.value
  {
    var patchworkArmor := false;
    if "armor_type" in b {
      var armorTypeField :- IntAt(b, "armor_type");
      if armorTypeField == ArmorPatchwork {
        patchworkArmor := true;
      } else {
        t.SetArmorType(armorTypeField);
      }
    } else {
      t.SetArmorType(ArmorStandard);
    }
    if !patchworkArmor && "armor_tech" in b {
      var level :- IntAt(b, "armor_tech");
      t.SetArmorTechLevel(level);
    }
    if !patchworkArmor {
      if "barrating" !in b {
        return Failure(MissingBarRating);
      }
      var bar :- IntAt(b, "barrating");
      t.SetBARRating(bar);
    } else {
      r := BuildPatchwork(t, b, env);
      return;
    }
    return Success(t.Snapshot());
  }

  method BuildTechRatings(t: SupportVTOL, b: Block) returns (r: Result<VehicleRecord, LoadError>)
    modifies t`structuralTechRating, t`armorTechRating, t`engineTechRating
    ensures r == LoadTechRatings(b, old(t.Snapshot()))
    ensures r.Success? ==> t.Snapshot() == r.value
  {
    if "structural_tech_rating" !in b {
      return Failure(MissingStructuralTechRating);
    }
    var structural :- IntAt(b, "structural_tech_rating");
    t.SetStructuralTechRating(structural);
    if "armor_tech_rating" in b {
      var rating :- IntAt(b, "armor_tech_rating");
      t.SetArmorTechRating(rating);
    }
    if "engine_tech_rating" in b {
      var rating :- IntAt(b, "engine_tech_rating");
      t.SetEngineTechRating(rating);
    }
    return Success(t.Snapshot());
  }

  method LoadAllEquipment(t: SupportVTOL, turret: bool)
    modifies t`equipment
    ensures t.Snapshot() == ApplyEquipment(old(t.Snapshot()), turret)
  {
    ghost var v := t.Snapshot();
    t.LoadEquipment("Front", LocFront);
    t.LoadEquipment("Right", LocRight);
    t.LoadEquipment("Left", LocLeft);
    t.LoadEquipment("Rear", LocRear);
    t.LoadEquipment("Body", LocBody);
    t.LoadEquipment("Rotor", LocRotor);
    assert t.equipment == v.equipment + EquipmentOrder(false);
    if turret {
      t.LoadEquipment("Turret", LocTurret);
    }
    assert t.equipment == v.equipment + EquipmentOrder(turret);
  }

  /** A load whose stages all succeed yields the entity they build. */
  lemma LoadSucceeds(b: Block, env: Env, basics: VehicleRecord, armor: seq<int32>,
                     typed: VehicleRecord, rated: VehicleRecord)
    requires LoadBasics(b, env, Initial) == Success(basics)
    requires ReadArmor(b) == Success(armor)
    requires LoadArmorTyping(b, env, ApplyArmor(basics, armor)) == Success(typed)
    requires LoadTechRatings(b, typed) == Success(rated)
    ensures Load(b, env) == Success(ApplyOmni(b, ApplyEquipment(rated, |armor| == 6)))
  {
  }

  /** getEntity: a new SupportVTOL filled in from the data block, or the first
      error; no entity escapes a failed load. */
  method GetEntity(b: Block, env: Env) returns (r: Result<SupportVTOL, LoadError>)
    ensures Load(b, env).Failure? ==> r == Failure(Load(b, env).error)
    ensures Load(b, env).Success? ==> r.Success? && fresh(r.value) && r.value.Snapshot() == Load(b, env).value
  {
    var t := new SupportVTOL();
    var basics :- BuildBasics(t, b, env);
    var armor :- BuildArmor(t, b);
    var typed :- BuildArmorTyping(t, b, env);
    var rated :- BuildTechRatings(t, b);
    LoadAllEquipment(t, |armor| == 6);
    if "omni" in b {
      t.SetOmni(true);
    }
    LoadSucceeds(b, env, basics, armor, typed, rated);
    return Success(t);
  }
}
