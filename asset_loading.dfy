/** The asset-loading gate (src/asset_loading.rs).

    `AssetsHandler` gathers the engine resources the gate reads and writes:
    the current application mode (`State<AppState>`), the mode recorded to
    become current once loading finishes (`NextState`), the queue of handles
    still being waited on (`AssetsLoading.asset_handles`), and the two stores
    of assets built in memory (`Assets<Mesh>`, `Assets<StandardMaterial>`).

    The engine's asset server is abstract. `asset_server.load(path)` yields
    a handle determined by the path, modelled as `Requested(kind, path)`; an
    in-memory store hands out the handle of the slot it appended, modelled as
    `Added(kind, index)`; the load status of a handle is an oracle
    `Handle -> LoadState` passed to the per-frame poll. */
module AssetLoading {
  import opened AppStates
  import opened GameStates
  import opened Wrappers

  /** The asset type a handle is typed with (`Handle<T>`). */
  datatype AssetType =
    | MeshAsset | FontAsset | AudioAsset | GltfAsset | AnimationAsset | ImageAsset | MaterialAsset

  datatype Handle =
    | Requested(kind: AssetType, path: string)   // from the asset server
    | Added(kind: AssetType, index: nat)         // from an in-memory store

  /** What the asset server reports for a handle; `NotYet` stands for every
      state other than loaded and failed. */
  datatype LoadState = Loaded | Failed | NotYet

  /** Geometry built from vertex data; its contents are not modelled. */
  type Mesh

  datatype AlphaMode = Opaque | Blend

  /** The two fields of a standard material that the gate sets; the others keep
      their defaults. */
  datatype Material = Material(baseColorTexture: Option<Handle>, alphaMode: AlphaMode)

  /** A texture: an image loaded from disk and a material that shows it. */
  datatype GameTexture = GameTexture(material: Handle, image: Handle)

  /** One call a per-mode loader makes on the handler. */
  datatype LoadRequest =
    | RequestAsset(kind: AssetType, path: string)        // add_mesh, add_font, ...
    | ConstructMesh(mesh: Mesh)                          // add_standard_mesh
    | ConstructMaterial(material: Material)              // add_standard_material
    | TexturedMaterial(path: string, transparent: bool)  // add_material

  /** The per-mode loaders (`splash::load`, `title_screen::load`,
      `ingame::load`), each given as the calls it makes. The in-game loader
      reads the game-progress record. */
  datatype Loaders = Loaders(
    splash: seq<LoadRequest>,
    titleScreen: seq<LoadRequest>,
    inGame: GameState -> seq<LoadRequest>)

  /** The calls made for `state`: only three modes have a loader. */
  function Plan(loaders: Loaders, state: AppState, game: GameState): seq<LoadRequest>
  {
    match state
    case Splash => loaders.splash
    case TitleScreen => loaders.titleScreen
    case InGame => loaders.inGame(game)
    case _ => []
  }

  /** The handles one request appends to the queue. */
  function QueuedBy(r: LoadRequest): seq<Handle>
  {
    match r
    case RequestAsset(kind, path) => [Requested(kind, path)]
    case TexturedMaterial(path, _) => [Requested(ImageAsset, path)]
    case _ => []
  }

  /** The handles a sequence of requests appends to the queue, in order. */
  function Queued(plan: seq<LoadRequest>): seq<Handle>
  {
    if plan == [] then [] else Queued(plan[..|plan| - 1]) + QueuedBy(plan[|plan| - 1])
  }

  /** The material `add_material` composes for an image. */
  function TextureMaterial(image: Handle, transparent: bool): Material
  {
    Material(Some(image), if transparent then Blend else Opaque)
  }

  /** The meshes one request adds to the mesh store. */
  function MeshesBy(r: LoadRequest): seq<Mesh>
  {
    match r
    case ConstructMesh(m) => [m]
    case _ => []
  }

  /** The materials one request adds to the material store. */
  function MaterialsBy(r: LoadRequest): seq<Material>
  {
    match r
    case ConstructMaterial(m) => [m]
    case TexturedMaterial(path, t) => [TextureMaterial(Requested(ImageAsset, path), t)]
    case _ => []
  }

  /** The meshes a sequence of requests adds to the mesh store, in order. */
  function MeshesBuilt(plan: seq<LoadRequest>): seq<Mesh>
  {
    if plan == [] then [] else MeshesBuilt(plan[..|plan| - 1]) + MeshesBy(plan[|plan| - 1])
  }

  /** The materials a sequence of requests adds to the material store. */
  function MaterialsBuilt(plan: seq<LoadRequest>): seq<Material>
  {
    if plan == [] then [] else MaterialsBuilt(plan[..|plan| - 1]) + MaterialsBy(plan[|plan| - 1])
  }

  /** Extending a prefix of a plan by one request. */
  lemma PlanPrefixStep(plan: seq<LoadRequest>, i: nat)
    requires i < |plan|
    ensures Queued(plan[..i + 1]) == Queued(plan[..i]) + QueuedBy(plan[i])
    ensures MeshesBuilt(plan[..i + 1]) == MeshesBuilt(plan[..i]) + MeshesBy(plan[i])
    ensures MaterialsBuilt(plan[..i + 1]) == MaterialsBuilt(plan[..i]) + MaterialsBy(plan[i])
  {
    assert plan[..i + 1][..i] == plan[..i];
  }

  /** The number of requests that wait on the asset server. */
  function AsyncRequests(plan: seq<LoadRequest>): nat
  {
    if plan == [] then 0
    else AsyncRequests(plan[..|plan| - 1])
         + (if plan[|plan| - 1].RequestAsset? || plan[|plan| - 1].TexturedMaterial? then 1 else 0)
  }

  /** Only asset-server handles enter the queue; constructed meshes and
      materials never do. */
  lemma {:induction false} QueuedAreServerHandles(plan: seq<LoadRequest>)
    ensures forall h :: h in Queued(plan) ==> h.Requested?
  {
    if plan != [] {
      QueuedAreServerHandles(plan[..|plan| - 1]);
    }
  }

  /** Each asset-server request queues exactly one handle, every other
      request none. */
  lemma {:induction false} QueuedCount(plan: seq<LoadRequest>)
    ensures |Queued(plan)| == AsyncRequests(plan) <= |plan|
  {
    if plan != [] {
      QueuedCount(plan[..|plan| - 1]);
    }
  }

  /** Running two plans one after the other queues what each queues. */
  lemma {:induction false} QueuedConcat(a: seq<LoadRequest>, b: seq<LoadRequest>)
    ensures Queued(a + b) == Queued(a) + Queued(b)
    decreases |b|
  {
    if b == [] {
      assert a + b == a;
    } else {
      var b0 := b[..|b| - 1];
      assert (a + b)[..|a + b| - 1] == a + b0;
      QueuedConcat(a, b0);
    }
  }

  /** Every handle in the queue has been loaded or has failed: what makes the
      gate commit. A failed asset counts as done. */
  predicate AllResolved(queue: seq<Handle>, status: Handle -> LoadState)
  {
    forall i :: 0 <= i < |queue| ==> status(queue[i]) != NotYet
  }

  /** The queued handles whose load failed, in queue order: what the poll
      reports as errors. */
  function FailedHandles(queue: seq<Handle>, status: Handle -> LoadState): seq<Handle>
  {
    if queue == [] then []
    else FailedHandles(queue[..|queue| - 1], status)
         + (if status(queue[|queue| - 1]) == Failed then [queue[|queue| - 1]] else [])
  }

  lemma {:induction false} FailedHandlesAreQueuedFailures(queue: seq<Handle>, status: Handle -> LoadState)
    ensures forall h :: h in FailedHandles(queue, status) <==> h in queue && status(h) == Failed
  {
    if queue != [] {
      var init := queue[..|queue| - 1];
      FailedHandlesAreQueuedFailures(init, status);
      assert queue == init + [queue[|queue| - 1]];
    }
  }

  /** Readiness looks at which handles are queued, not at their order or
      multiplicity. */
  lemma ReadinessIgnoresOrder(q1: seq<Handle>, q2: seq<Handle>, status: Handle -> LoadState)
    requires forall h :: h in q1 <==> h in q2
    ensures AllResolved(q1, status) <==> AllResolved(q2, status)
  {
    if AllResolved(q1, status) {
      forall j | 0 <= j < |q2| ensures status(q2[j]) != NotYet {
        assert q2[j] in q1;
      }
    }
    if AllResolved(q2, status) {
      forall j | 0 <= j < |q1| ensures status(q1[j]) != NotYet {
        assert q1[j] in q2;
      }
    }
  }

  /** A failure never blocks the commit: turning any handles from loaded (or
      anything else) into failed keeps a ready queue ready. */
  lemma FailureNeverBlocks(queue: seq<Handle>, status: Handle -> LoadState, status': Handle -> LoadState)
    requires forall h :: status'(h) == status(h) || status'(h) == Failed
    requires AllResolved(queue, status)
    ensures AllResolved(queue, status')
  {
  }

  /** A snapshot of the gate: current mode, recorded next mode and queue. */
  datatype Gate = Gate(current: AppState, pending: AppState, queue: seq<Handle>)

  /** The gate's effect of `load(next)` when the loader queues `queued`. */
  function LoadStep(g: Gate, next: AppState, queued: seq<Handle>): Gate
  {
    Gate(Loading, next, g.queue + queued)
  }

  /** The gate's effect of one `check_assets_ready` poll. */
  function PollStep(g: Gate, status: Handle -> LoadState): Gate
  {
    if AllResolved(g.queue, status) then Gate(g.pending, g.pending, []) else g
  }

  /** One poll per element of `frames`, each with that frame's load status. */
  function Polls(g: Gate, frames: seq<Handle -> LoadState>): Gate
  {
    if frames == [] then g else PollStep(Polls(g, frames[..|frames| - 1]), frames[|frames| - 1])
  }

  /** The gate stays in Loading, with its queue intact, through every frame in
      which some queued handle is unresolved, and commits to the recorded
      mode on the first frame in which all are resolved, in whatever order
      they resolved. */
  lemma {:induction false} CommitsOnFirstReadyFrame(g: Gate, frames: seq<Handle -> LoadState>, k: nat)
    requires k < |frames|
    requires forall i :: 0 <= i < k ==> !AllResolved(g.queue, frames[i])
    requires AllResolved(g.queue, frames[k])
    ensures Polls(g, frames[..k]) == g
    ensures Polls(g, frames[..k + 1]) == Gate(g.pending, g.pending, [])
  {
    WaitsWhileUnresolved(g, frames[..k]);
    assert frames[..k + 1][..k] == frames[..k];
  }

  lemma {:induction false} WaitsWhileUnresolved(g: Gate, frames: seq<Handle -> LoadState>)
    requires forall i :: 0 <= i < |frames| ==> !AllResolved(g.queue, frames[i])
    ensures Polls(g, frames) == g
  {
    if frames != [] {
      WaitsWhileUnresolved(g, frames[..|frames| - 1]);
    }
  }

  /** A load whose loader queues nothing, from an empty queue, commits on the
      very next poll, whatever the asset server reports. */
  lemma EmptyLoadCommitsOnNextPoll(g: Gate, next: AppState, status: Handle -> LoadState)
    requires g.queue == []
    ensures PollStep(LoadStep(g, next, []), status) == Gate(next, next, [])
  {
  }

  /** Loading the game with a mesh, a sound and a font queued: one of them
      still loading keeps the gate in Loading; once all three are loaded the
      game becomes current and the queue is empty. */
  lemma ThreeAssetScenario(g: Gate, mesh: Handle, audio: Handle, font: Handle)
    requires g.current != Loading && g.queue == []
    ensures var loading := LoadStep(g, InGame, [mesh, audio, font]);
            var frame1 := (h: Handle) => if h == mesh then NotYet else Loaded;
            var frame2 := (h: Handle) => Loaded;
            && PollStep(loading, frame1) == loading
            && loading.current == Loading
            && PollStep(PollStep(loading, frame1), frame2) == Gate(InGame, InGame, [])
  {
    var loading := LoadStep(g, InGame, [mesh, audio, font]);
    assert loading.queue[0] == mesh;
  }

  /** The gate's invariant between frames: a non-empty queue is only ever
      waited on in the Loading mode. */
  predicate Settled(g: Gate)
  {
    g.queue != [] ==> g.current == Loading
  }

  lemma StepsKeepSettled(g: Gate, next: AppState, queued: seq<Handle>, status: Handle -> LoadState)
    ensures Settled(LoadStep(g, next, queued))
    ensures Settled(g) ==> Settled(PollStep(g, status))
  {
  }

  /** The engine resources the gate works on (`AssetsHandler`). */
  class AssetsHandler {
    var current: AppState         // State<AppState>
    var pending: AppState         // NextState.state
    var queue: seq<Handle>        // AssetsLoading.asset_handles
    var meshes: seq<Mesh>         // Assets<Mesh>
    var materials: seq<Material>  // Assets<StandardMaterial>

    function Snapshot(): Gate
      reads this
    {
      Gate(current, pending, queue)
    }

    /** The resources as the app is built: the Initial mode, a next mode that
        defaults to TitleScreen, and nothing queued or stored. */
    constructor ()
      ensures current == StartState && pending == TitleScreen
      ensures queue == [] && meshes == [] && materials == []
    {
      current := StartState;
      pending := TitleScreen;
      queue := [];
      meshes := [];
      materials := [];
    }

    /** Requests an asset from the server: the slot gets the new handle and
        exactly that handle is appended to the queue. */
    method AddAsset(kind: AssetType, path: string) returns (slot: Handle)
      modifies this`queue
      ensures slot == Requested(kind, path)
      ensures queue == old(queue) + [slot]
    {
      slot := Requested(kind, path);
      queue := queue + [slot];
    }

    method AddMesh(path: string) returns (slot: Handle)
      modifies this`queue
      ensures slot == Requested(MeshAsset, path) && queue == old(queue) + [slot]
    {
      slot := AddAsset(MeshAsset, path);
    }

    method AddFont(path: string) returns (slot: Handle)
      modifies this`queue
      ensures slot == Requested(FontAsset, path) && queue == old(queue) + [slot]
    {
      slot := AddAsset(FontAsset, path);
    }

    method AddAudio(path: string) returns (slot: Handle)
      modifies this`queue
      ensures slot == Requested(AudioAsset, path) && queue == old(queue) + [slot]
    {
      slot := AddAsset(AudioAsset, path);
    }

    method AddGlb(path: string) returns (slot: Handle)
      modifies this`queue
      ensures slot == Requested(GltfAsset, path) && queue == old(queue) + [slot]
    {
      slot := AddAsset(GltfAsset, path);
    }

    method AddAnimation(path: string) returns (slot: Handle)
      modifies this`queue
      ensures slot == Requested(AnimationAsset, path) && queue == old(queue) + [slot]
    {
      slot := AddAsset(AnimationAsset, path);
    }

    /** Stores a mesh built in memory: the slot gets the store's new handle;
        the queue is not touched. */
    method AddStandardMesh(mesh: Mesh) returns (slot: Handle)
      modifies this`meshes
      ensures slot == Added(MeshAsset, |old(meshes)|)
      ensures meshes == old(meshes) + [mesh]
      ensures queue == old(queue)
    {
      slot := Added(MeshAsset, |meshes|);
      meshes := meshes + [mesh];
    }

    /** Stores a material built in memory; the queue is not touched. */
    method AddStandardMaterial(material: Material) returns (slot: Handle)
      modifies this`materials
      ensures slot == Added(MaterialAsset, |old(materials)|)
      ensures materials == old(materials) + [material]
      ensures queue == old(queue)
    {
      slot := Added(MaterialAsset, |materials|);
      materials := materials + [material];
    }

    /** Requests an image and stores a material showing it, blended when
        `transparent` and opaque otherwise. Only the image is queued. */
    method AddMaterial(path: string, transparent: bool) returns (texture: GameTexture)
      modifies this`queue, this`materials
      ensures texture.image == Requested(ImageAsset, path)
      ensures queue == old(queue) + [texture.image]
      ensures texture.material == Added(MaterialAsset, |old(materials)|)
      ensures materials == old(materials) + [TextureMaterial(texture.image, transparent)]
      ensures materials[texture.material.index].baseColorTexture == Some(texture.image)
      ensures materials[texture.material.index].alphaMode == (if transparent then Blend else Opaque)
    {
      var image := AddAsset(ImageAsset, path);
      var material := AddStandardMaterial(
        Material(Some(image), if transparent then Blend else Opaque));
      texture := GameTexture(material, image);
    }

    /** Makes one call of a per-mode loader. */
    method RunRequest(r: LoadRequest)
      modifies this`queue, this`meshes, this`materials
      ensures queue == old(queue) + QueuedBy(r)
      ensures meshes == old(meshes) + MeshesBy(r)
      ensures materials == old(materials) + MaterialsBy(r)
    {
      match r {
        case RequestAsset(kind, path) =>
          var _ := AddAsset(kind, path);
        case ConstructMesh(mesh) =>
          var _ := AddStandardMesh(mesh);
        case ConstructMaterial(material) =>
          var _ := AddStandardMaterial(material);
        case TexturedMaterial(path, transparent) =>
          var _ := AddMaterial(path, transparent);
      }
    }

    /** Makes the calls of one per-mode loader, in order. */
    method RunLoader(plan: seq<LoadRequest>)
      modifies this`queue, this`meshes, this`materials
      ensures queue == old(queue) + Queued(plan)
      ensures meshes == old(meshes) + MeshesBuilt(plan)
      ensures materials == old(materials) + MaterialsBuilt(plan)
    {
      var i := 0;
      while i < |plan|
        invariant 0 <= i <= |plan|
        invariant queue == old(queue) + Queued(plan[..i])
        invariant meshes == old(meshes) + MeshesBuilt(plan[..i])
        invariant materials == old(materials) + MaterialsBuilt(plan[..i])
      {
        PlanPrefixStep(plan, i);
        RunRequest(plan[i]);
        i := i + 1;
      }
      assert plan[..i] == plan;
    }

    /** Runs the loader of `state`; a mode without one changes nothing. */
    method QueueAssetsForState(state: AppState, loaders: Loaders, game: GameState)
      modifies this`queue, this`meshes, this`materials
      ensures queue == old(queue) + Queued(Plan(loaders, state, game))
      ensures meshes == old(meshes) + MeshesBuilt(Plan(loaders, state, game))
      ensures materials == old(materials) + MaterialsBuilt(Plan(loaders, state, game))
      ensures state !in {Splash, TitleScreen, InGame} ==>
                queue == old(queue) && meshes == old(meshes) && materials == old(materials)
    {
      match state
      case Splash => RunLoader(loaders.splash);
      case TitleScreen => RunLoader(loaders.titleScreen);
      case InGame => RunLoader(loaders.inGame(game));
      case _ =>
    }

    /** `load(next)`: queue the assets of `next`, record `next` and switch to
        Loading, even when nothing was queued. Setting Loading aborts when the
        app is already in Loading, so callers must not be. */
    method Load(next: AppState, loaders: Loaders, game: GameState)
      requires current != Loading
      modifies this
      ensures Snapshot() == LoadStep(old(Snapshot()), next, Queued(Plan(loaders, next, game)))
      ensures meshes == old(meshes) + MeshesBuilt(Plan(loaders, next, game))
      ensures materials == old(materials) + MaterialsBuilt(Plan(loaders, next, game))
    {
      QueueAssetsForState(next, loaders, game);
      pending := next;
      current := Loading;
    }

    /** Looks at every queued handle, in order: ready when none is still
        loading; the failed ones are reported. */
    method AssetsReady(status: Handle -> LoadState) returns (ready: bool, errors: seq<Handle>)
      ensures ready <==> forall i :: 0 <= i < |queue| ==> status(queue[i]) in {Loaded, Failed}
      ensures ready == AllResolved(queue, status)
      ensures errors == FailedHandles(queue, status)
    {
      ready := true;
      errors := [];
      var i := 0;
      while i < |queue|
        invariant 0 <= i <= |queue|
        invariant ready == AllResolved(queue[..i], status)
        invariant errors == FailedHandles(queue[..i], status)
      {
        assert queue[..i + 1][..i] == queue[..i];
        match status(queue[i]) {
          case Failed => errors := errors + [queue[i]];
          case Loaded =>
          case NotYet => ready := false;
        }
        i := i + 1;
      }
      assert queue[..i] == queue;
    }

    /** The per-frame poll, run only in Loading. When every queued handle is
        resolved the queue is emptied and the recorded mode becomes current
        (setting it aborts if it is Loading itself); otherwise nothing
        changes. The recorded mode is never cleared. */
    method CheckAssetsReady(status: Handle -> LoadState) returns (errors: seq<Handle>)
      requires current == Loading
      requires AllResolved(queue, status) ==> pending != Loading
      modifies this`queue, this`current
      ensures Snapshot() == PollStep(old(Snapshot()), status)
      ensures errors == FailedHandles(old(queue), status)
    {
      var ready;
      ready, errors := AssetsReady(status);
      if ready {
        queue := [];
        current := pending;
      }
    }
  }
}
