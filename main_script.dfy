/** The MainScript component: the fields its lifecycle callbacks update and
    the callbacks themselves, each proved against the pure model in modules
    Placement and Rendering. */
module Script {

  import opened Wrappers
  import opened Placement
  import opened Rendering

  /** Bytes per sphere record in the GPU buffer. */
  const SPHERE_STRIDE: nat := 48

  /** The `ComputeBuffer` of spheres: element count, stride, the records
      uploaded by `SetData`, and whether `Release` has been called. */
  datatype SphereBuffer = SphereBuffer(count: nat, stride: nat, data: seq<Sphere>, released: bool)

  class MainScript {
    // Editor-set parameters.
    var numSpheres: nat
    var sphereRadiusMin: real
    var sphereRadiusMax: real

    // Private state: `texture != null`, `sampleCount`, `AATexture != null`, `spheres`.
    var textureAllocated: bool
    var sampleCount: nat
    var materialCreated: bool
    var spheres: Option<SphereBuffer>

    // `transform.hasChanged` and `Light.transform.hasChanged`: raised by the
    // engine when the camera or the light moves, cleared by `Update`.
    var cameraChanged: bool
    var lightChanged: bool

    ghost predicate Valid()
      reads this
    {
      sampleCount < UINT_MODULUS &&
      (spheres.Some? ==>
         spheres.value.count == |spheres.value.data| <= numSpheres &&
         spheres.value.stride == SPHERE_STRIDE)
    }

    /** The fields the render state machine works on. */
    function State(): (st: RenderState)
      reads this
    {
      RenderState(textureAllocated, sampleCount, cameraChanged, lightChanged)
    }

    /** The component as the engine creates it: field initialisers, no
        texture, no material, no buffer; the flags are the engine's. */
    constructor (numSpheres: nat, sphereRadiusMin: real, sphereRadiusMax: real,
                 cameraChanged: bool, lightChanged: bool)
      ensures Valid()
      ensures this.numSpheres == numSpheres
      ensures this.sphereRadiusMin == sphereRadiusMin && this.sphereRadiusMax == sphereRadiusMax
      ensures State() == RenderState(false, 0, cameraChanged, lightChanged)
      ensures !materialCreated && spheres == None
    {
      this.numSpheres := numSpheres;
      this.sphereRadiusMin := sphereRadiusMin;
      this.sphereRadiusMax := sphereRadiusMax;
      textureAllocated := false;
      sampleCount := 0;
      materialCreated := false;
      spheres := None;
      this.cameraChanged := cameraChanged;
      this.lightChanged := lightChanged;
    }

    /** `GetSpheres` (run from `OnEnable`): place the spheres, then create a
        buffer sized to the accepted spheres, not to `numSpheres`, and upload
        them in acceptance order. `complete` is false only when the finite
        draws ran out before every slot was decided; the buffer then holds the
        spheres accepted so far. */
    method GetSpheres(draws: seq<Draw>) returns (complete: bool)
      requires Valid()
      modifies this`spheres
      ensures Valid()
      ensures var scene := Generate(numSpheres, sphereRadiusMin, sphereRadiusMax, draws);
              spheres == Some(SphereBuffer(|scene.spheres|, SPHERE_STRIDE, scene.spheres, false)) &&
              complete == scene.complete
      ensures spheres.value.count <= numSpheres && Apart(spheres.value.data)
    {
      var accepted, _, done := PlaceSpheres(numSpheres, sphereRadiusMin, sphereRadiusMax, draws);
      spheres := Some(SphereBuffer(|accepted|, SPHERE_STRIDE, accepted, false));
      complete := done;
    }

    /** `OnDisable`: release the buffer if there is one. */
    method OnDisable()
      requires Valid()
      modifies this`spheres
      ensures Valid()
      ensures spheres == if old(spheres).Some? then Some(old(spheres).value.(released := true)) else None
    {
      if spheres.Some? {
        spheres := Some(spheres.value.(released := true));
      }
    }

    /** `Render`: allocate the texture on first use and restart the count,
        dispatch one group per 8x8 tile, create the blend material on first
        use, blend with the current count and count the sample. */
    method Render(width: int, height: int) returns (out: FrameOutput)
      requires Valid()
      modifies this`textureAllocated, this`sampleCount, this`materialCreated
      ensures Valid() && materialCreated
      ensures (State(), out) == RenderStep(old(State()), width, height)
    {
      if !textureAllocated {
        textureAllocated := true;
        sampleCount := 0;
      }
      var grid := DispatchGrid(width, height);
      if !materialCreated {
        materialCreated := true;
      }
      out := FrameOutput(grid, sampleCount);
      sampleCount := (sampleCount + 1) % UINT_MODULUS;
    }

    /** `Update`: when the camera or the light has moved, restart the count and
        clear both flags. */
    method Update()
      requires Valid()
      modifies this`sampleCount, this`cameraChanged, this`lightChanged
      ensures Valid()
      ensures State() == UpdateStep(old(State()))
    {
      if cameraChanged || lightChanged {
        sampleCount := 0;
        cameraChanged := false;
        lightChanged := false;
      }
    }
  }
}
