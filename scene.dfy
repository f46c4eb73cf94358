/**
 * The page-to-scene table of js/main.js: which builder `handlePageChange`
 * picks for a page id, and what each builder adds to the scene.
 *
 * A builder is kept only as the fixed list of opaque objects it appends; the
 * random sizes, colours, positions and speeds it draws are not modelled.
 */
module Scene {

  /** The fourteen `create...Scene` builders. */
  datatype Builder =
    | Home | Dota2 | Csgo2 | Valorant | League | Fortnite | Overwatch
    | Pubg | News | Tournaments | Streams | Merchandise | Contacts | About

  /** How `animate` moves an object, decided by the shape of its `userData`. */
  datatype Motion =
    | Still         // no `speed` and no `rotationSpeed`
    | DriftAndSpin  // `speed` and a number `rotationSpeed`: rises, wraps, turns on x and y
    | AxisSpin      // an `{x, y, z}` `rotationSpeed`: turns on three axes

  /** An object added to the scene: a mesh, a `Points` particle system or an ambient light. */
  datatype Drawable = Mesh(motion: Motion) | Particles | Light

  /** `count` identical objects added in one loop (or one call). */
  datatype Batch = Batch(item: Drawable, count: nat)

  /** What each builder adds, batch by batch, in the order it adds them. */
  function Recipe(b: Builder): seq<Batch> {
    match b
    case Home => [Batch(Mesh(DriftAndSpin), 15), Batch(Light, 1)]
    case Dota2 => [Batch(Particles, 1), Batch(Mesh(DriftAndSpin), 8)]
    case Csgo2 => [Batch(Mesh(AxisSpin), 12)]
    case Valorant => [Batch(Mesh(Still), 1), Batch(Particles, 1), Batch(Mesh(AxisSpin), 6)]
    case League => [Batch(Mesh(Still), 1), Batch(Mesh(DriftAndSpin), 10)]
    case Fortnite => [Batch(Mesh(DriftAndSpin), 20)]
    case Overwatch => [Batch(Mesh(AxisSpin), 15)]
    case Pubg => [Batch(Mesh(AxisSpin), 18)]
    case News => [Batch(Mesh(DriftAndSpin), 12)]
    case Tournaments => [Batch(Mesh(DriftAndSpin), 10)]
    case Streams => [Batch(Mesh(DriftAndSpin), 14)]
    case Merchandise => [Batch(Mesh(AxisSpin), 16)]
    case Contacts => [Batch(Mesh(DriftAndSpin), 12)]
    case About => [Batch(Mesh(AxisSpin), 15)]
  }

  /** The number of objects each builder adds, counted from its loops. */
  function ObjectCount(b: Builder): nat {
    match b
    case Home => 16
    case Dota2 => 9
    case Csgo2 => 12
    case Valorant => 8
    case League => 11
    case Fortnite => 20
    case Overwatch => 15
    case Pubg => 18
    case News => 12
    case Tournaments => 10
    case Streams => 14
    case Merchandise => 16
    case Contacts => 12
    case About => 15
  }

  function Repeat(d: Drawable, n: nat): (r: seq<Drawable>)
    ensures |r| == n
    ensures forall k :: 0 <= k < n ==> r[k] == d
  {
    if n == 0 then [] else Repeat(d, n - 1) + [d]
  }

  /** The objects a list of batches adds, in order. */
  function Expand(batches: seq<Batch>): seq<Drawable> {
    if batches == [] then [] else Repeat(batches[0].item, batches[0].count) + Expand(batches[1..])
  }

  /** The sum of the batch sizes. */
  function Total(batches: seq<Batch>): nat {
    if batches == [] then 0 else batches[0].count + Total(batches[1..])
  }

  /** The scene a builder leaves behind when it starts from an empty scene. */
  function SceneOf(b: Builder): seq<Drawable> {
    Expand(Recipe(b))
  }

  lemma {:induction false} ExpandLength(batches: seq<Batch>)
    ensures |Expand(batches)| == Total(batches)
  {
    if batches != [] {
      ExpandLength(batches[1..]);
    }
  }

  /** Every builder adds exactly the number of objects its loops count up to. */
  lemma SceneSizes(b: Builder)
    ensures |SceneOf(b)| == ObjectCount(b)
  {
    var r := Recipe(b);
    ExpandLength(r);
    assert |r| >= 2 ==> r[1..][1..] == r[2..];
  }

  /** The home builder: fifteen drifting spheres, then one ambient light. */
  lemma HomeScene()
    ensures SceneOf(Home) == Repeat(Mesh(DriftAndSpin), 15) + [Light]
  {
    var r := Recipe(Home);
    assert r[1..] == [Batch(Light, 1)];
    assert Repeat(Light, 1) == [Light];
  }

  /** The dota2 builder: one particle system, then eight drifting orbs. */
  lemma Dota2Scene()
    ensures SceneOf(Dota2) == [Particles] + Repeat(Mesh(DriftAndSpin), 8)
  {
    var r := Recipe(Dota2);
    assert r[1..] == [Batch(Mesh(DriftAndSpin), 8)];
    assert Repeat(Particles, 1) == [Particles];
  }

  /** The csgo2 builder: twelve shapes turning on three axes. */
  lemma Csgo2Scene()
    ensures SceneOf(Csgo2) == Repeat(Mesh(AxisSpin), 12)
  {
  }

  // ---- the switch in handlePageChange ------------------------------------

  /** The page id each builder's `case` label names. */
  function PageOf(b: Builder): string {
    match b
    case Home => "home"
    case Dota2 => "dota2"
    case Csgo2 => "csgo2"
    case Valorant => "valorant"
    case League => "league"
    case Fortnite => "fortnite"
    case Overwatch => "overwatch"
    case Pubg => "pubg"
    case News => "news"
    case Tournaments => "tournaments"
    case Streams => "streams"
    case Merchandise => "merchandise"
    case Contacts => "contacts"
    case About => "about"
  }

  /** The case labels of the switch. */
  const KnownPages: set<string> := {
    "home", "dota2", "csgo2", "valorant", "league", "fortnite", "overwatch",
    "pubg", "news", "tournaments", "streams", "merchandise", "contacts", "about"
  }

  /** `switch (page)`: each case label selects its own builder, `default` the home one. */
  function SelectBuilder(page: string): (b: Builder)
    ensures page in KnownPages ==> PageOf(b) == page
    ensures page !in KnownPages ==> b == Home
  {
    if page == "home" then Home
    else if page == "dota2" then Dota2
    else if page == "csgo2" then Csgo2
    else if page == "valorant" then Valorant
    else if page == "league" then League
    else if page == "fortnite" then Fortnite
    else if page == "overwatch" then Overwatch
    else if page == "pubg" then Pubg
    else if page == "news" then News
    else if page == "tournaments" then Tournaments
    else if page == "streams" then Streams
    else if page == "merchandise" then Merchandise
    else if page == "contacts" then Contacts
    else if page == "about" then About
    else Home
  }

  /** Every builder is selected by its own page id and by no other id except through the default. */
  lemma SelectBuilderOwnPage(b: Builder, page: string)
    ensures SelectBuilder(PageOf(b)) == b && PageOf(b) in KnownPages
    ensures SelectBuilder(page) == b && b != Home ==> page == PageOf(b)
  {
  }
}
