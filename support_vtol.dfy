/** The entity a support-VTOL BLK file is loaded into: the attributes of a
    SupportVTOL that the loader sets, and the few entity operations it calls. */
module SupportVTOLEntity {
  import opened Wrappers
  import opened JavaInt
  import opened BuildingBlock

  // Location indices of a VTOL (Tank.LOC_BODY .. Tank.LOC_REAR, VTOL.LOC_ROTOR,
  // VTOL.LOC_TURRET).
  const LocBody: int := 0
  const LocFront: int := 1
  const LocRight: int := 2
  const LocLeft: int := 3
  const LocRear: int := 4
  const LocRotor: int := 5
  const LocTurret: int := 6

  // Type codes of EquipmentType used by the loader.
  const StructureStandard: int32 := 0
  const ArmorStandard: int32 := 0
  const ArmorPatchwork: int32 := 7

  /** EntityMovementMode: the sentinel NONE or one of the modes, by ordinal. */
  datatype MovementMode = NoneMode | Mode(ordinal: nat)

  /** The engine flags, as named flags rather than bits. */
  datatype EngineFlag = TankEngine | SupportVeeEngine

  datatype Engine = Engine(rating: int32, engineType: int, flags: set<EngineFlag>)

  /** One `loadEquipment(t, blockName, location)` call. */
  datatype EquipmentBlock = EquipmentBlock(blockName: string, location: int)

  /** The loader-visible state of a SupportVTOL. An Option attribute is None
      while the loader has not written it (the entity's own default applies). */
  datatype VehicleRecord = VehicleRecord(
    chassis: JString,
    model: JString,
    source: Option<JString>,
    weight: real,
    movementMode: MovementMode,
    fuelTonnage: Option<real>,
    engine: Option<Engine>,
    originalWalkMP: int32,
    structureType: int32,
    hasNoTurret: bool,
    hasNoDualTurret: bool,
    armor: map<int, int32>,
    armorType: Option<int32>,
    armorTechLevel: Option<int32>,
    barRating: Option<int32>,
    armorTypeAt: map<int, int32>,
    armorTechLevelAt: map<int, int32>,
    barRatingAt: map<int, int32>,
    structuralTechRating: Option<int32>,
    armorTechRating: Option<int32>,
    engineTechRating: Option<int32>,
    omni: bool,
    equipment: seq<EquipmentBlock>)

  /** A newly constructed SupportVTOL, as far as the loader can observe it. */
  const Initial: VehicleRecord := VehicleRecord(
    Null, Null, None, 0.0, NoneMode, None, None, 0, StructureStandard, false, false,
    map[], None, None, None, map[], map[], map[], None, None, None, false, [])

  class SupportVTOL {
    var chassis: JString
    var model: JString
    var source: Option<JString>
    var weight: real
    var movementMode: MovementMode
    var fuelTonnage: Option<real>
    var engine: Option<Engine>
    var originalWalkMP: int32
    var structureType: int32
    var hasNoTurret: bool
    var hasNoDualTurret: bool
    /** Armor points by location, as written by InitializeArmor. */
    var armor: map<int, int32>
    /** Whole-entity armor type, armor tech level and BAR rating. */
    var armorType: Option<int32>
    var armorTechLevel: Option<int32>
    var barRating: Option<int32>
    /** Per-location armor type, armor tech level and BAR rating (patchwork). */
    var armorTypeAt: map<int, int32>
    var armorTechLevelAt: map<int, int32>
    var barRatingAt: map<int, int32>
    var structuralTechRating: Option<int32>
    var armorTechRating: Option<int32>
    var engineTechRating: Option<int32>
    var omni: bool
    /** The equipment blocks loaded so far, in order. */
    var equipment: seq<EquipmentBlock>

    function Snapshot(): VehicleRecord
      reads this
    {
      VehicleRecord(
        chassis, model, source, weight, movementMode, fuelTonnage, engine,
        originalWalkMP, structureType, hasNoTurret, hasNoDualTurret, armor,
        armorType, armorTechLevel, barRating, armorTypeAt, armorTechLevelAt, barRatingAt,
        structuralTechRating, armorTechRating, engineTechRating, omni, equipment)
    }

    constructor ()
      ensures Snapshot() == Initial
    {
      chassis, model, source, weight := Null, Null, None, 0.0;
      movementMode, fuelTonnage, engine := NoneMode, None, None;
      originalWalkMP, structureType := 0, StructureStandard;
      hasNoTurret, hasNoDualTurret, armor := false, false, map[];
      armorType, armorTechLevel, barRating := None, None, None;
      armorTypeAt, armorTechLevelAt, barRatingAt := map[], map[], map[];
      structuralTechRating, armorTechRating, engineTechRating := None, None, None;
      omni, equipment := false, [];
    }

    /** `setChassis`. */
    method SetChassis(x: JString)
      modifies this`chassis
      ensures Snapshot() == old(Snapshot()).(chassis := x)
    {
      chassis := x;
    }

    /** `setModel`. */
    method SetModel(x: JString)
      modifies this`model
      ensures Snapshot() == old(Snapshot()).(model := x)
    {
      model := x;
    }

    /** `setSource`. */
    method SetSource(x: JString)
      modifies this`source
      ensures Snapshot() == old(Snapshot()).(source := Some(x))
    {
      source := Some(x);
    }

    /** `setWeight`. */
    method SetWeight(x: real)
      modifies this`weight
      ensures Snapshot() == old(Snapshot()).(weight := x)
    {
      weight := x;
    }

    /** `setMovementMode`. */
    method SetMovementMode(x: MovementMode)
      modifies this`movementMode
      ensures Snapshot() == old(Snapshot()).(movementMode := x)
    {
      movementMode := x;
    }

    /** `setFuelTonnage`. */
    method SetFuelTonnage(x: real)
      modifies this`fuelTonnage
      ensures Snapshot() == old(Snapshot()).(fuelTonnage := Some(x))
    {
      fuelTonnage := Some(x);
    }

    /** `setEngine`. */
    method SetEngine(x: Engine)
      modifies this`engine
      ensures Snapshot() == old(Snapshot()).(engine := Some(x))
    {
      engine := Some(x);
    }

    /** `setOriginalWalkMP`. */
    method SetOriginalWalkMP(x: int32)
      modifies this`originalWalkMP
      ensures Snapshot() == old(Snapshot()).(originalWalkMP := x)
    {
      originalWalkMP := x;
    }

    /** `setStructureType`. */
    method SetStructureType(x: int32)
      modifies this`structureType
      ensures Snapshot() == old(Snapshot()).(structureType := x)
    {
      structureType := x;
    }

    /** `setHasNoTurret`. */
    method SetHasNoTurret(x: bool)
      modifies this`hasNoTurret
      ensures Snapshot() == old(Snapshot()).(hasNoTurret := x)
    {
      hasNoTurret := x;
    }

    /** `setHasNoDualTurret`. */
    method SetHasNoDualTurret(x: bool)
      modifies this`hasNoDualTurret
      ensures Snapshot() == old(Snapshot()).(hasNoDualTurret := x)
    {
      hasNoDualTurret := x;
    }

    /** `setArmorType`. */
    method SetArmorType(x: int32)
      modifies this`armorType
      ensures Snapshot() == old(Snapshot()).(armorType := Some(x))
    {
      armorType := Some(x);
    }

    /** `setArmorTechLevel`. */
    method SetArmorTechLevel(x: int32)
      modifies this`armorTechLevel
      ensures Snapshot() == old(Snapshot()).(armorTechLevel := Some(x))
    {
      armorTechLevel := Some(x);
    }

    /** `setBARRating`. */
    method SetBARRating(x: int32)
      modifies this`barRating
      ensures Snapshot() == old(Snapshot()).(barRating := Some(x))
    {
      barRating := Some(x);
    }

    /** `setStructuralTechRating`. */
    method SetStructuralTechRating(x: int32)
      modifies this`structuralTechRating
      ensures Snapshot() == old(Snapshot()).(structuralTechRating := Some(x))
    {
      structuralTechRating := Some(x);
    }

    /** `setArmorTechRating`. */
    method SetArmorTechRating(x: int32)
      modifies this`armorTechRating
      ensures Snapshot() == old(Snapshot()).(armorTechRating := Some(x))
    {
      armorTechRating := Some(x);
    }

    /** `setEngineTechRating`. */
    method SetEngineTechRating(x: int32)
      modifies this`engineTechRating
      ensures Snapshot() == old(Snapshot()).(engineTechRating := Some(x))
    {
      engineTechRating := Some(x);
    }

    /** `setOmni`. */
    method SetOmni(x: bool)
      modifies this`omni
      ensures Snapshot() == old(Snapshot()).(omni := x)
    {
      omni := x;
    }

    /** `initializeArmor(val, loc)`: sets the armor points of one location. */
    method InitializeArmor(val: int32, loc: int)
      modifies this`armor
      ensures Snapshot() == old(Snapshot()).(armor := old(armor)[loc := val])
    {
      armor := armor[loc := val];
    }

    /** `setArmorType(type, loc)`. */
    method SetArmorTypeAt(armorCode: int32, loc: int)
      modifies this`armorTypeAt
      ensures Snapshot() == old(Snapshot()).(armorTypeAt := old(armorTypeAt)[loc := armorCode])
    {
      armorTypeAt := armorTypeAt[loc := armorCode];
    }

    /** `setArmorTechLevel(level, loc)`. */
    method SetArmorTechLevelAt(level: int32, loc: int)
      modifies this`armorTechLevelAt
      ensures Snapshot() == old(Snapshot()).(armorTechLevelAt := old(armorTechLevelAt)[loc := level])
    {
      armorTechLevelAt := armorTechLevelAt[loc := level];
    }

    /** `setBARRating(rating, loc)`. */
    method SetBARRatingAt(rating: int32, loc: int)
      modifies this`barRatingAt
      ensures Snapshot() == old(Snapshot()).(barRatingAt := old(barRatingAt)[loc := rating])
    {
      barRatingAt := barRatingAt[loc := rating];
    }

    /** `loadEquipment(this, blockName, loc)`, recorded as a call; the equipment
        lookup itself is not modelled. */
    method LoadEquipment(blockName: string, loc: int)
      modifies this`equipment
      ensures Snapshot() == old(Snapshot()).(equipment := old(equipment) + [EquipmentBlock(blockName, loc)])
    {
      equipment := equipment + [EquipmentBlock(blockName, loc)];
    }
  }
}
