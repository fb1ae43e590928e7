/** Reading a run's history: which comparisons form a legal chain, and the state they lead to. */
module History {
  import opened Prelude
  import opened RecipeSpace
  import opened Cpbo
  import opened TrustRegions

  type RecipeRows = map<RecipeId, RecipePoint>

  /** The valid shots by identifier. */
  function ValidById(shots: seq<Shot>): map<ShotId, Shot>
  {
    if shots == [] then map[]
    else
      var last := shots[|shots| - 1];
      var earlier := ValidById(shots[..|shots| - 1]);
      if last.status.Valid? then earlier[last.id := last] else earlier
  }

  /** The first valid shot of a list in sequence order. */
  function Baseline(shots: seq<Shot>): Option<ShotId>
  {
    if shots == [] then None
    else
      var earlier := Baseline(shots[..|shots| - 1]);
      var last := shots[|shots| - 1];
      if earlier.Some? then earlier else if last.status.Valid? then Some(last.id) else None
  }

  function Ranks(shots: seq<Shot>): map<ShotId, nat>
  {
    map i | i in ValidById(shots) :: ValidById(shots)[i].sequence
  }

  function PositionIn(rows: RecipeRows, id: RecipeId): Option<Point>
  {
    if id in rows then Some(rows[id].position) else None
  }

  /** Where each valid shot lies in the recipe space, if its recipe is known. */
  function Centers(shots: seq<Shot>, rows: RecipeRows): map<ShotId, Option<Point>>
  {
    map i | i in ValidById(shots) :: PositionIn(rows, ValidById(shots)[i].recipe)
  }

  /** The previous compared shot and the incumbent. */
  datatype Head = Head(previous: ShotId, incumbent: ShotId)

  function Advance(h: Head, c: Comparison): Head
  {
    Head(c.newShot, if c.preference.NewBetter? && c.anchor == h.incumbent then c.newShot else h.incumbent)
  }

  function HeadAfter(base: ShotId, cs: seq<Comparison>): Head
  {
    if cs == [] then Head(base, base) else Advance(HeadAfter(base, cs[..|cs| - 1]), cs[|cs| - 1])
  }

  function Compared(cs: seq<Comparison>): set<ShotId> { set c | c in cs :: c.newShot }

  function Expected(h: Head, mode: Mode): ShotId { if mode.GlobalPrevious? then h.previous else h.incumbent }

  /** A comparison may follow a prefix: two valid shots, new after anchor, not compared yet, anchored as its mode says. */
  predicate Legal(run: RunId, ranks: map<ShotId, nat>, base: ShotId, prefix: seq<Comparison>, c: Comparison)
  {
    && c.newShot in ranks && c.anchor in ranks
    && c.run == run
    && c.newShot !in Compared(prefix)
    && c.anchor == Expected(HeadAfter(base, prefix), c.mode)
    && ranks[c.anchor] < ranks[c.newShot]
  }

  predicate LegalChain(run: RunId, ranks: map<ShotId, nat>, base: ShotId, cs: seq<Comparison>)
  {
    cs != [] ==>
      LegalChain(run, ranks, base, cs[..|cs| - 1]) && Legal(run, ranks, base, cs[..|cs| - 1], cs[|cs| - 1])
  }

  /** Filters a history down to the comparisons that are legal after what was kept before them. */
  function Retained(run: RunId, ranks: map<ShotId, nat>, base: ShotId, cs: seq<Comparison>): seq<Comparison>
  {
    if cs == [] then []
    else
      var kept := Retained(run, ranks, base, cs[..|cs| - 1]);
      var c := cs[|cs| - 1];
      if Legal(run, ranks, base, kept, c) then kept + [c] else kept
  }

  function RetainedHistory(run: RunId, shots: seq<Shot>, cs: seq<Comparison>): seq<Comparison>
  {
    match Baseline(shots)
    case None => []
    case Some(base) => Retained(run, Ranks(shots), base, cs)
  }

  datatype Replayed = Replayed(head: Head, region: TrustRegion)

  /** Replays one comparison and the resume marker that follows it, if any. */
  function ReplayStep(s: Schedule, centers: map<ShotId, Option<Point>>, markers: Markers, r: Replayed, c: Comparison): Result<Replayed>
  {
    var _ :- Need(c.newShot in centers && c.anchor in centers, MissingValidShot);
    var head := Advance(r.head, c);
    var region :- Judge(s, r.region, c, centers[c.newShot], Some(head.incumbent));
    if Some(c.id) !in markers then Ok(Replayed(head, region))
    else
      var _ :- Need(region.locallyConverged, MarkerWithoutConvergence);
      var _ :- Need(head.incumbent in centers && centers[head.incumbent].Some?, MissingRecipe);
      var marker := markers[Some(c.id)];
      var createdAt := if marker.createdAt.Some? && marker.createdAt.value != 0 then marker.createdAt.value else c.createdAt;
      var resumed :- Resume(s, region, ClampPoint(centers[head.incumbent].value), Some(c.id), head.incumbent, createdAt, marker.control);
      Ok(Replayed(head, resumed))
  }

  function Replay(s: Schedule, centers: map<ShotId, Option<Point>>, markers: Markers, start: Replayed, cs: seq<Comparison>): Result<Replayed>
  {
    if cs == [] then Ok(start)
    else
      var r :- Replay(s, centers, markers, start, cs[..|cs| - 1]);
      ReplayStep(s, centers, markers, r, cs[|cs| - 1])
  }

  function StartAt(s: Schedule, base: ShotId, position: Point): Replayed
  {
    Replayed(Head(base, base), Fresh(s, ClampPoint(position)))
  }

  /** The previous shot, incumbent and trust region a history leads to. */
  datatype Rebuilt = Rebuilt(head: Option<Head>, region: TrustRegion)

  function RebuildHistory(s: Schedule, stored: TrustRegion, shots: seq<Shot>, rows: RecipeRows, cs: seq<Comparison>): Result<Rebuilt>
  {
    var _ :- Need(DistinctMarkers(stored.transitions), DuplicateMarker);
    match Baseline(shots)
    case None => Ok(Rebuilt(None, Fresh(s, stored.center)))
    case Some(base) => RebuildFrom(s, MarkersOf(stored.transitions), base, Centers(shots, rows), cs)
  }

  function RebuildFrom(s: Schedule, markers: Markers, base: ShotId, centers: map<ShotId, Option<Point>>, cs: seq<Comparison>): Result<Rebuilt>
  {
    var _ :- Need(base in centers && centers[base].Some?, MissingRecipe);
    var r :- Replay(s, centers, markers, StartAt(s, base, centers[base].value), cs);
    var _ :- Need(MarkersOf(r.region.transitions).Keys == markers.Keys, MarkerWithoutHistory);
    Ok(Rebuilt(Some(r.head), r.region))
  }
}
