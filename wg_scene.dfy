/**
 * World population of the work-graphs sample (Scene::PopulateWorld): the
 * material table, then per floor one ground plane, a grid of light-emitting
 * glitter balls and a grid of dancing boxes.
 *
 * Positions, sizes, angles and colours are floating-point values drawn from
 * rand(); an object keeps only its symbolic placement (floor and room). The
 * one draw whose value matters is the material of each box: `draw(f, x, z)`
 * stands for the rand() result used for the box in room (x, z) of floor f.
 */
module WorkGraphsScene {
  import opened Seqs

  datatype MeshType = Plane | Box | Sphere
  datatype MaterialType = Lambert | Phong | Metallic | Velvet | Flakes | Faceted | Stan | Checker
  datatype AnimType = Static | RotateY | Dance

  /** Base colour of a material: the ground grey, white, or a random colour. */
  datatype Colour = GroundColour | White | RandomColour
  datatype Material = Material(baseColor: Colour, materialType: MaterialType)

  /** Where an object stands: the centre of a floor, or a random spot in room
    * (x, z) of the ball grid or of the object grid of a floor. */
  datatype Placement =
    | FloorCentre(floor: nat)
    | BallRoom(floor: nat, roomX: nat, roomZ: nat)
    | ObjectRoom(floor: nat, roomX: nat, roomZ: nat)

  datatype Instance = Instance(placement: Placement, meshType: MeshType, material: nat, animType: AnimType)

  /** Light `index` of the ball hanging in room (x, z) of a floor. */
  datatype Light = Light(floor: nat, roomX: nat, roomZ: nat, index: nat)

  const MATERIAL_COUNT_OF_EACH_TYPE: nat := 10
  const FLOORS: nat := 3
  const FLOOR_SIZE: nat := 500
  const OBJECT_ROOM_SIZE: nat := 50
  const BALL_ROOM_SIZE: nat := 120
  const LIGHTS_PER_BALL: nat := 3

  /** `(int)(FloorSize / RoomSize)`: both sizes are whole and positive, so
    * truncating the float quotient is integer division. */
  const BALL_ROOMS_1D: nat := FLOOR_SIZE / BALL_ROOM_SIZE
  const OBJECT_ROOMS_1D: nat := FLOOR_SIZE / OBJECT_ROOM_SIZE

  /** The order of the seven generated material blocks. */
  const GENERATED_TYPES: seq<MaterialType> := [Lambert, Phong, Metallic, Velvet, Flakes, Stan, Checker]

  // ---------------------------------------------------------------------------
  // Materials

  function MaterialBlock(t: MaterialType): seq<Material>
  {
    Repeat(Material(RandomColour, t), MATERIAL_COUNT_OF_EACH_TYPE)
  }

  /** The first k generated blocks. */
  function GeneratedMaterials(k: nat): (r: seq<Material>)
    requires k <= |GENERATED_TYPES|
    ensures |r| == MATERIAL_COUNT_OF_EACH_TYPE * k
  {
    if k == 0 then [] else GeneratedMaterials(k - 1) + MaterialBlock(GENERATED_TYPES[k - 1])
  }

  function FixedMaterials(): seq<Material>
  {
    [Material(GroundColour, Lambert), Material(White, Faceted)]
  }

  function MaterialTable(): seq<Material>
  {
    FixedMaterials() + GeneratedMaterials(|GENERATED_TYPES|)
  }

  lemma {:induction false} GeneratedMaterialsAt(k: nat, i: nat)
    requires k <= |GENERATED_TYPES| && i < MATERIAL_COUNT_OF_EACH_TYPE * k
    ensures GeneratedMaterials(k)[i] == Material(RandomColour, GENERATED_TYPES[i / MATERIAL_COUNT_OF_EACH_TYPE])
  {
    if i < MATERIAL_COUNT_OF_EACH_TYPE * (k - 1) {
      GeneratedMaterialsAt(k - 1, i);
    } else {
      assert i / MATERIAL_COUNT_OF_EACH_TYPE == k - 1;
    }
  }

  /** 72 materials: 0 is the grey Lambert of the ground, 1 the white faceted
    * material of the balls, then ten random-coloured materials of each of
    * Lambert, Phong, Metallic, Velvet, Flakes, Stan and Checker, in that order. */
  lemma MaterialTableLayout()
    ensures |MaterialTable()| == 72
    ensures MaterialTable()[0] == Material(GroundColour, Lambert)
    ensures MaterialTable()[1] == Material(White, Faceted)
    ensures forall i :: 2 <= i < 72 ==> MaterialTable()[i] == Material(RandomColour, GENERATED_TYPES[(i - 2) / 10])
  {
    forall i | 2 <= i < 72
      ensures MaterialTable()[i] == Material(RandomColour, GENERATED_TYPES[(i - 2) / 10])
    {
      GeneratedMaterialsAt(|GENERATED_TYPES|, i - 2);
    }
  }

  // ---------------------------------------------------------------------------
  // World objects and lights

  function GroundPlane(floor: nat): Instance
  {
    Instance(FloorCentre(floor), Plane, 0, Static)
  }

  function Ball(floor: nat, x: nat, z: nat): Instance
  {
    Instance(BallRoom(floor, x, z), Sphere, 1, RotateY)
  }

  /** The first n balls of row x. */
  function BallRow(floor: nat, x: nat, n: nat): (r: seq<Instance>)
    ensures |r| == n
  {
    if n == 0 then [] else BallRow(floor, x, n - 1) + [Ball(floor, x, n - 1)]
  }

  /** The balls of the first m rows of the ball grid. */
  function BallRows(floor: nat, m: nat): (r: seq<Instance>)
    ensures |r| == BALL_ROOMS_1D * m
  {
    if m == 0 then [] else BallRows(floor, m - 1) + BallRow(floor, m - 1, BALL_ROOMS_1D)
  }

  /** The first n lights of the ball in room (x, z). */
  function BallLights(floor: nat, x: nat, z: nat, n: nat): (r: seq<Light>)
    ensures |r| == n
  {
    if n == 0 then [] else BallLights(floor, x, z, n - 1) + [Light(floor, x, z, n - 1)]
  }

  function LightRow(floor: nat, x: nat, n: nat): (r: seq<Light>)
    ensures |r| == LIGHTS_PER_BALL * n
  {
    if n == 0 then [] else LightRow(floor, x, n - 1) + BallLights(floor, x, n - 1, LIGHTS_PER_BALL)
  }

  function LightRows(floor: nat, m: nat): (r: seq<Light>)
    ensures |r| == LIGHTS_PER_BALL * BALL_ROOMS_1D * m
  {
    if m == 0 then [] else LightRows(floor, m - 1) + LightRow(floor, m - 1, BALL_ROOMS_1D)
  }

  /** `rand() % ((int)materialCount - 2) + 2`: one of the generated
    * materials, skipping the two fixed ones. */
  function BoxMaterial(materialCount: nat, r: nat): (m: nat)
    requires materialCount > 2
    ensures 2 <= m < materialCount
  {
    r % (materialCount - 2) + 2
  }

  function DancingBox(floor: nat, x: nat, z: nat, materialCount: nat, draw: (nat, nat, nat) -> nat): Instance
    requires materialCount > 2
  {
    Instance(ObjectRoom(floor, x, z), Box, BoxMaterial(materialCount, draw(floor, x, z)), Dance)
  }

  function BoxRow(floor: nat, x: nat, n: nat, materialCount: nat, draw: (nat, nat, nat) -> nat): (r: seq<Instance>)
    requires materialCount > 2
    ensures |r| == n
  {
    if n == 0 then [] else BoxRow(floor, x, n - 1, materialCount, draw) + [DancingBox(floor, x, n - 1, materialCount, draw)]
  }

  function BoxRows(floor: nat, m: nat, materialCount: nat, draw: (nat, nat, nat) -> nat): (r: seq<Instance>)
    requires materialCount > 2
    ensures |r| == OBJECT_ROOMS_1D * m
  {
    if m == 0 then [] else BoxRows(floor, m - 1, materialCount, draw) + BoxRow(floor, m - 1, OBJECT_ROOMS_1D, materialCount, draw)
  }

  function FloorObjects(floor: nat, materialCount: nat, draw: (nat, nat, nat) -> nat): seq<Instance>
    requires materialCount > 2
  {
    [GroundPlane(floor)] + BallRows(floor, BALL_ROOMS_1D) + BoxRows(floor, OBJECT_ROOMS_1D, materialCount, draw)
  }

  function FloorLights(floor: nat): seq<Light>
  {
    LightRows(floor, BALL_ROOMS_1D)
  }

  /** The objects of the first m floors. */
  function WorldObjects(m: nat, materialCount: nat, draw: (nat, nat, nat) -> nat): seq<Instance>
    requires materialCount > 2
  {
    if m == 0 then [] else WorldObjects(m - 1, materialCount, draw) + FloorObjects(m - 1, materialCount, draw)
  }

  function WorldLights(m: nat): seq<Light>
  {
    if m == 0 then [] else WorldLights(m - 1) + FloorLights(m - 1)
  }

  /** An object refers to an existing material: the ground plane to material
    * 0, a ball to material 1 and a box to one of the generated ones. */
  predicate ValidObject(o: Instance, materialCount: nat)
  {
    o.material < materialCount &&
    match o.meshType
    case Plane => o.material == 0 && o.animType == Static
    case Sphere => o.material == 1 && o.animType == RotateY
    case Box => 2 <= o.material && o.animType == Dance
  }

  predicate AllValid(objects: seq<Instance>, materialCount: nat)
  {
    forall o :: o in objects ==> ValidObject(o, materialCount)
  }

  lemma {:induction false} BallRowValid(floor: nat, x: nat, n: nat, materialCount: nat)
    requires materialCount > 2
    ensures forall o :: o in BallRow(floor, x, n) ==> o.meshType == Sphere && ValidObject(o, materialCount)
  {
    if n > 0 {
      BallRowValid(floor, x, n - 1, materialCount);
    }
  }

  lemma {:induction false} BallRowsValid(floor: nat, m: nat, materialCount: nat)
    requires materialCount > 2
    ensures forall o :: o in BallRows(floor, m) ==> o.meshType == Sphere && ValidObject(o, materialCount)
  {
    if m > 0 {
      BallRowsValid(floor, m - 1, materialCount);
      BallRowValid(floor, m - 1, BALL_ROOMS_1D, materialCount);
    }
  }

  lemma {:induction false} BoxRowValid(floor: nat, x: nat, n: nat, materialCount: nat, draw: (nat, nat, nat) -> nat)
    requires materialCount > 2
    ensures forall o :: o in BoxRow(floor, x, n, materialCount, draw) ==> o.meshType == Box && ValidObject(o, materialCount)
  {
    if n > 0 {
      BoxRowValid(floor, x, n - 1, materialCount, draw);
    }
  }

  lemma {:induction false} BoxRowsValid(floor: nat, m: nat, materialCount: nat, draw: (nat, nat, nat) -> nat)
    requires materialCount > 2
    ensures forall o :: o in BoxRows(floor, m, materialCount, draw) ==> o.meshType == Box && ValidObject(o, materialCount)
  {
    if m > 0 {
      BoxRowsValid(floor, m - 1, materialCount, draw);
      BoxRowValid(floor, m - 1, OBJECT_ROOMS_1D, materialCount, draw);
    }
  }

  /** The ball grid of a floor: 16 balls, each with the faceted material 1. */
  lemma BallGridLayout(floor: nat, materialCount: nat)
    requires materialCount > 2
    ensures |BallRows(floor, BALL_ROOMS_1D)| == 16
    ensures forall o :: o in BallRows(floor, BALL_ROOMS_1D) ==> o.meshType == Sphere && o.material == 1
  {
    BallRowsValid(floor, BALL_ROOMS_1D, materialCount);
  }

  /** The box grid of a floor: 100 boxes, each with a generated material. */
  lemma BoxGridLayout(floor: nat, materialCount: nat, draw: (nat, nat, nat) -> nat)
    requires materialCount > 2
    ensures |BoxRows(floor, OBJECT_ROOMS_1D, materialCount, draw)| == 100
    ensures forall o :: o in BoxRows(floor, OBJECT_ROOMS_1D, materialCount, draw) ==> o.meshType == Box && 2 <= o.material < materialCount
  {
    BoxRowsValid(floor, OBJECT_ROOMS_1D, materialCount, draw);
  }

  /** One floor: the ground plane first, then 16 balls and 100 boxes, with 3
    * lights per ball; every object refers to an existing material. */
  lemma FloorLayout(floor: nat, materialCount: nat, draw: (nat, nat, nat) -> nat)
    requires materialCount > 2
    ensures FloorObjects(floor, materialCount, draw)[0] == GroundPlane(floor)
    ensures |FloorObjects(floor, materialCount, draw)| == 117
    ensures |FloorLights(floor)| == LIGHTS_PER_BALL * 16
    ensures AllValid(FloorObjects(floor, materialCount, draw), materialCount)
  {
    BallRowsValid(floor, BALL_ROOMS_1D, materialCount);
    BoxRowsValid(floor, OBJECT_ROOMS_1D, materialCount, draw);
  }

  /** Three floors give 351 objects and 144 lights, and every object refers
    * to an existing material. */
  lemma {:induction false} WorldLayout(m: nat, materialCount: nat, draw: (nat, nat, nat) -> nat)
    requires materialCount > 2
    ensures |WorldObjects(m, materialCount, draw)| == 117 * m
    ensures |WorldLights(m)| == 48 * m
    ensures AllValid(WorldObjects(m, materialCount, draw), materialCount)
  {
    if m > 0 {
      WorldLayout(m - 1, materialCount, draw);
      FloorLayout(m - 1, materialCount, draw);
    }
  }

  /** The world a fresh scene holds once populated. */
  lemma FreshWorld(materials: seq<Material>, objects: seq<Instance>, lights: seq<Light>, draw: (nat, nat, nat) -> nat)
    requires materials == [] + MaterialTable()
    requires objects == [] + WorldObjects(FLOORS, |materials|, draw)
    requires lights == [] + WorldLights(FLOORS)
    ensures materials == MaterialTable() && |materials| == 72
    ensures |objects| == 351 && |lights| == 144
    ensures AllValid(objects, |materials|)
  {
    assert |materials| == 72;
    assert objects == WorldObjects(FLOORS, 72, draw);
    WorldLayout(FLOORS, 72, draw);
  }

  // ---------------------------------------------------------------------------
  // The scene object

  class Scene {
    var materials: seq<Material>
    var worldObjects: seq<Instance>
    var lights: seq<Light>

    constructor ()
      ensures materials == [] && worldObjects == [] && lights == []
    {
      materials, worldObjects, lights := [], [], [];
    }

    /** Appends the material table, then the objects and lights of each floor.
      * The seven generated blocks differ only in their float parameters, so
      * one loop over the block order stands for `PopulateWorld`'s seven loops. */
    method PopulateWorld(draw: (nat, nat, nat) -> nat)
      modifies this
      ensures materials == old(materials) + MaterialTable()
      ensures worldObjects == old(worldObjects) + WorldObjects(FLOORS, |materials|, draw)
      ensures lights == old(lights) + WorldLights(FLOORS)
    {
      AddMaterialTable();
      AddFloors(draw);
    }

    /** The two fixed materials, then the seven generated blocks. */
    method AddMaterialTable()
      modifies this`materials
      ensures materials == old(materials) + MaterialTable()
    {
      materials := materials + [Material(GroundColour, Lambert)];
      materials := materials + [Material(White, Faceted)];
      assert materials == old(materials) + FixedMaterials() + GeneratedMaterials(0);
      var k := 0;
      while k < |GENERATED_TYPES|
        invariant 0 <= k <= |GENERATED_TYPES|
        invariant materials == old(materials) + FixedMaterials() + GeneratedMaterials(k)
      {
        AddMaterials(GENERATED_TYPES[k]);
        AppendAssoc(old(materials) + FixedMaterials(), GeneratedMaterials(k), MaterialBlock(GENERATED_TYPES[k]));
        k := k + 1;
      }
      AppendAssoc(old(materials), FixedMaterials(), GeneratedMaterials(|GENERATED_TYPES|));
    }

    /** The floors, each drawing box materials from the complete table. */
    method AddFloors(draw: (nat, nat, nat) -> nat)
      requires |materials| > 2
      modifies this`worldObjects, this`lights
      ensures worldObjects == old(worldObjects) + WorldObjects(FLOORS, |materials|, draw)
      ensures lights == old(lights) + WorldLights(FLOORS)
    {
      assert worldObjects == old(worldObjects) + WorldObjects(0, |materials|, draw);
      assert lights == old(lights) + WorldLights(0);
      var floor := 0;
      while floor < FLOORS
        invariant 0 <= floor <= FLOORS
        invariant worldObjects == old(worldObjects) + WorldObjects(floor, |materials|, draw)
        invariant lights == old(lights) + WorldLights(floor)
      {
        AddFloor(floor, draw);
        AppendAssoc(old(worldObjects), WorldObjects(floor, |materials|, draw), FloorObjects(floor, |materials|, draw));
        AppendAssoc(old(lights), WorldLights(floor), FloorLights(floor));
        floor := floor + 1;
      }
    }

    /** One block of generated materials of type `t`. */
    method AddMaterials(t: MaterialType)
      modifies this`materials
      ensures materials == old(materials) + MaterialBlock(t)
    {
      var i := 0;
      while i < MATERIAL_COUNT_OF_EACH_TYPE
        invariant 0 <= i <= MATERIAL_COUNT_OF_EACH_TYPE
        invariant materials == old(materials) + Repeat(Material(RandomColour, t), i)
      {
        materials := materials + [Material(RandomColour, t)];
        i := i + 1;
      }
    }

    /** One floor: the ground plane, the balls with their lights, the boxes. */
    method AddFloor(floor: nat, draw: (nat, nat, nat) -> nat)
      requires |materials| > 2
      modifies this`worldObjects, this`lights
      ensures worldObjects == old(worldObjects) + FloorObjects(floor, |materials|, draw)
      ensures lights == old(lights) + FloorLights(floor)
    {
      worldObjects := worldObjects + [GroundPlane(floor)];
      AddBalls(floor);
      AddBoxes(floor, draw);
      AppendAssoc(old(worldObjects), [GroundPlane(floor)] + BallRows(floor, BALL_ROOMS_1D), BoxRows(floor, OBJECT_ROOMS_1D, |materials|, draw));
      AppendAssoc(old(worldObjects), [GroundPlane(floor)], BallRows(floor, BALL_ROOMS_1D));
    }

    method AddBalls(floor: nat)
      modifies this`worldObjects, this`lights
      ensures worldObjects == old(worldObjects) + BallRows(floor, BALL_ROOMS_1D)
      ensures lights == old(lights) + LightRows(floor, BALL_ROOMS_1D)
    {
      var roomX := 0;
      while roomX < BALL_ROOMS_1D
        invariant 0 <= roomX <= BALL_ROOMS_1D
        invariant worldObjects == old(worldObjects) + BallRows(floor, roomX)
        invariant lights == old(lights) + LightRows(floor, roomX)
      {
        AddBallRow(floor, roomX);
        AppendAssoc(old(worldObjects), BallRows(floor, roomX), BallRow(floor, roomX, BALL_ROOMS_1D));
        AppendAssoc(old(lights), LightRows(floor, roomX), LightRow(floor, roomX, BALL_ROOMS_1D));
        roomX := roomX + 1;
      }
    }

    /** Row x of the ball grid: each ball followed by its lights. */
    method AddBallRow(floor: nat, roomX: nat)
      modifies this`worldObjects, this`lights
      ensures worldObjects == old(worldObjects) + BallRow(floor, roomX, BALL_ROOMS_1D)
      ensures lights == old(lights) + LightRow(floor, roomX, BALL_ROOMS_1D)
    {
      var roomZ := 0;
      while roomZ < BALL_ROOMS_1D
        invariant 0 <= roomZ <= BALL_ROOMS_1D
        invariant worldObjects == old(worldObjects) + BallRow(floor, roomX, roomZ)
        invariant lights == old(lights) + LightRow(floor, roomX, roomZ)
      {
        worldObjects := worldObjects + [Ball(floor, roomX, roomZ)];
        AddBallLights(floor, roomX, roomZ);
        AppendAssoc(old(lights), LightRow(floor, roomX, roomZ), BallLights(floor, roomX, roomZ, LIGHTS_PER_BALL));
        roomZ := roomZ + 1;
      }
    }

    method AddBallLights(floor: nat, roomX: nat, roomZ: nat)
      modifies this`lights
      ensures lights == old(lights) + BallLights(floor, roomX, roomZ, LIGHTS_PER_BALL)
    {
      var light := 0;
      while light < LIGHTS_PER_BALL
        invariant 0 <= light <= LIGHTS_PER_BALL
        invariant lights == old(lights) + BallLights(floor, roomX, roomZ, light)
      {
        lights := lights + [Light(floor, roomX, roomZ, light)];
        light := light + 1;
      }
    }

    /** The box grid of a floor; each box draws its material from the
      * materials present at that time. */
    method AddBoxes(floor: nat, draw: (nat, nat, nat) -> nat)
      requires |materials| > 2
      modifies this`worldObjects
      ensures worldObjects == old(worldObjects) + BoxRows(floor, OBJECT_ROOMS_1D, |materials|, draw)
    {
      var roomX := 0;
      while roomX < OBJECT_ROOMS_1D
        invariant 0 <= roomX <= OBJECT_ROOMS_1D
        invariant worldObjects == old(worldObjects) + BoxRows(floor, roomX, |materials|, draw)
      {
        AddBoxRow(floor, roomX, draw);
        AppendAssoc(old(worldObjects), BoxRows(floor, roomX, |materials|, draw), BoxRow(floor, roomX, OBJECT_ROOMS_1D, |materials|, draw));
        roomX := roomX + 1;
      }
    }

    method AddBoxRow(floor: nat, roomX: nat, draw: (nat, nat, nat) -> nat)
      requires |materials| > 2
      modifies this`worldObjects
      ensures worldObjects == old(worldObjects) + BoxRow(floor, roomX, OBJECT_ROOMS_1D, |materials|, draw)
    {
      var roomZ := 0;
      while roomZ < OBJECT_ROOMS_1D
        invariant 0 <= roomZ <= OBJECT_ROOMS_1D
        invariant worldObjects == old(worldObjects) + BoxRow(floor, roomX, roomZ, |materials|, draw)
      {
        var material := draw(floor, roomX, roomZ) % (|materials| - 2) + 2;
        worldObjects := worldObjects + [Instance(ObjectRoom(floor, roomX, roomZ), Box, material, Dance)];
        roomZ := roomZ + 1;
      }
    }
  }

  /** CreateAssets populates a fresh scene: 72 materials, 351 objects and 144
    * lights, every object referring to an existing material. */
  method CreateWorld(draw: (nat, nat, nat) -> nat) returns (scene: Scene)
    ensures scene.materials == MaterialTable() && |scene.materials| == 72
    ensures |scene.worldObjects| == 351 && |scene.lights| == 144
    ensures AllValid(scene.worldObjects, |scene.materials|)
  {
    scene := new Scene();
    scene.PopulateWorld(draw);
    FreshWorld(scene.materials, scene.worldObjects, scene.lights, draw);
  }
}
