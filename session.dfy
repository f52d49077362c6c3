/** The three stores of the application and how they are wired (src/contexts/StoreContext.tsx):
    one `MapStore` shared by reference by the polygon and the object store. */
module Session {
  import opened Services
  import opened MapState
  import opened Polygons
  import opened Objects

  /** The state of all three stores together. */
  datatype World = World(ui: UiState, polygons: PolygonState, objects: ObjectState)

  /** The effect of one handler: the new state, the service calls made, how it settled. */
  datatype Transition = Transition(world: World, calls: seq<Call>, outcome: Settled)

  const InitialWorld := World(InitialUi, InitialPolygons, InitialObjects)

  /** Both entity stores hold the one shared `MapStore`. */
  ghost predicate Wired(m: MapStore, p: PolygonStore, o: ObjectStore)
  {
    p.mapStore == m && o.mapStore == m
  }

  ghost function WorldOf(m: MapStore, p: PolygonStore, o: ObjectStore): World
    reads m, p, o
  {
    World(m.State(), p.State(), o.State())
  }

  /** The root store: a fresh `MapStore` shared by a fresh polygon and object store. */
  method NewRootStore() returns (m: MapStore, p: PolygonStore, o: ObjectStore)
    ensures fresh(m) && fresh(p) && fresh(o)
    ensures Wired(m, p, o) && m.Valid()
    ensures WorldOf(m, p, o) == InitialWorld
  {
    m := new MapStore();
    p := new PolygonStore(m);
    o := new ObjectStore(m);
  }
}
