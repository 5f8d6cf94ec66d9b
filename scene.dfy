/** The scene set up in Init (main.cpp): physical constants, the horizon
    radius of the central black hole, the accretion-disk annulus carried in
    the uniform buffer, and the table of three objects uploaded to the GPU.
    Single-precision constants are their decimal values as exact reals. */
module Scene {

  /** Speed of light, m/s (`kC`). */
  const C: real := 299792458.0
  /** Gravitational constant, m^3/(kg s^2) (`kG`). */
  const G: real := 6.67430e-11
  /** Mass of the central black hole, kg (`kBlackHoleMass`). */
  const BlackHoleMass: real := 8.54e36
  /** Mass of each of the two orbiting stars, kg. */
  const StarMass: real := 1.98892e30
  /** Radius of each of the two orbiting stars, m. */
  const StarRadius: real := 4.0e10
  /** Distance of each orbiting star from the origin, m. */
  const StarOrbit: real := 4.0e11

  /** The Schwarzschild relation: the horizon radius `2 G m / c^2` of a body
      of mass `m`. */
  function SchwarzschildRadius(mass: real): (r: real)
    requires 0.0 < mass
    ensures 0.0 < r
    // the relation read backwards: r c^2 / 2G gives the mass again
    ensures r * (C * C) == 2.0 * G * mass
  {
    2.0 * G * mass / (C * C)
  }

  /** A heavier body has a larger horizon. */
  lemma SchwarzschildMonotone(m1: real, m2: real)
    requires 0.0 < m1 < m2
    ensures SchwarzschildRadius(m1) < SchwarzschildRadius(m2)
  {
  }

  /** The horizon radius of the central body (`kBlackHoleRadius`). */
  const BlackHoleRadius: real := SchwarzschildRadius(BlackHoleMass)

  /** Inner and outer radius of the accretion disk (the uniform buffer's
      `DiskR1` and `DiskR2`). */
  const DiskR1: real := BlackHoleRadius * 2.2
  const DiskR2: real := BlackHoleRadius * 5.2

  datatype Vec3 = Vec3(x: real, y: real, z: real)

  const Origin: Vec3 := Vec3(0.0, 0.0, 0.0)
  const Black: Vec3 := Vec3(0.0, 0.0, 0.0)

  /** One entry of the object buffer: a gravitating sphere. */
  datatype Object = Object(position: Vec3, radius: real, color: Vec3, mass: real)

  /** The uniform buffer's `ObjectCount`. */
  const ObjectCount: nat := 3

  /** The object table: a yellow and a red star, then the black hole. */
  const Objects: seq<Object> := [
    Object(Vec3(StarOrbit, 0.0, 0.0), StarRadius, Vec3(1.0, 1.0, 0.0), StarMass),
    Object(Vec3(0.0, 0.0, StarOrbit), StarRadius, Vec3(1.0, 0.0, 0.0), StarMass),
    Object(Origin, BlackHoleRadius, Black, BlackHoleMass)
  ]

  predicate UnitInterval(v: real) {
    0.0 <= v <= 1.0
  }

  /** A well-formed object: positive size and mass, colour channels in [0, 1]. */
  predicate ValidObject(o: Object) {
    0.0 < o.radius && 0.0 < o.mass &&
    UnitInterval(o.color.x) && UnitInterval(o.color.y) && UnitInterval(o.color.z)
  }

  /** A well-formed scene: every object well-formed; the last one is the
      central black hole, at the origin, black, its radius its horizon
      radius; and the disk lies outside the horizon, inner edge below outer. */
  predicate ValidScene(objects: seq<Object>, diskInner: real, diskOuter: real) {
    0 < |objects| &&
    (forall i :: 0 <= i < |objects| ==> ValidObject(objects[i])) &&
    var central := objects[|objects| - 1];
    central.position == Origin && central.color == Black &&
    central.radius == SchwarzschildRadius(central.mass) &&
    central.radius < diskInner < diskOuter
  }

  function DistanceSquared(a: Vec3, b: Vec3): real {
    (a.x - b.x) * (a.x - b.x) + (a.y - b.y) * (a.y - b.y) + (a.z - b.z) * (a.z - b.z)
  }

  /** The horizon radius is positive, the disk lies outside it, and its inner
      edge is below its outer edge. */
  lemma DiskOrdering()
    ensures 0.0 < BlackHoleRadius < DiskR1 < DiskR2
  {
  }

  /** The object table holds ObjectCount objects, forms a valid scene with
      the disk, and ends with the black hole. */
  lemma SceneIsValid()
    ensures |Objects| == ObjectCount
    ensures ValidScene(Objects, DiskR1, DiskR2)
    ensures Objects[2] == Object(Origin, BlackHoleRadius, Black, BlackHoleMass)
  {
    DiskOrdering();
  }

  /** No two objects overlap, and the stars lie wholly outside the disk. */
  lemma ObjectsApart()
    ensures forall i, j :: 0 <= i < j < |Objects| ==>
      (Objects[i].radius + Objects[j].radius) * (Objects[i].radius + Objects[j].radius)
        < DistanceSquared(Objects[i].position, Objects[j].position)
    ensures forall i :: 0 <= i < 2 ==>
      (Objects[i].radius + DiskR2) * (Objects[i].radius + DiskR2)
        < DistanceSquared(Objects[i].position, Origin)
  {
  }
}
