/**
 * Textures and meshes: Texture::load over an image-decoder oracle, the Mesh
 * class that owns a vertex array and two buffers, and Mesh::draw, whose GL calls
 * are specified by DrawEvents.
 */
module Meshes {
  import opened Wrappers
  import opened Text
  import opened Geometry
  import opened Gl
  import opened Shaders

  datatype TextureType = Diffuse | Specular | Normal | Height

  datatype Texture = Texture(id: nat, kind: TextureType, file: string)

  datatype Vertex = Vertex(position: Vec3, normal: Vec3, texCoords: Vec2)

  /** What stbi_load reports for a path: failure, or the size and channel count. */
  datatype Image = DecodeFailed | Decoded(width: int, height: int, channels: int)

  type Decoder = string -> Image

  /** The pixel format Texture::load uploads with; unknown channel counts fall back to RGB. */
  function FormatFor(channels: int): (format: PixelFormat)
    ensures format == Red <==> channels == 1
    ensures format == Rgba <==> channels == 4
    ensures format == Rgb <==> channels != 1 && channels != 4
  {
    if channels == 1 then Red
    else if channels == 3 then Rgb
    else if channels == 4 then Rgba
    else Rgb
  }

  /** The result of Texture::load once it has generated the name `id` and decoded `image`. */
  function LoadedTexture(id: nat, image: Image, file: string, kind: TextureType): (t: Option<Texture>)
    ensures t.None? <==> image.DecodeFailed?
    ensures t.Some? ==> t.value.id == id && t.value.kind == kind && t.value.file == file
  {
    if image.DecodeFailed? then None else Some(Texture(id, kind, file))
  }

  /** The GL calls of Texture::load: bind the new name, then upload and mipmap if decoding worked. */
  function LoadEvents(id: nat, image: Image): seq<Event> {
    [BindTexture(id)] +
    if image.DecodeFailed? then []
    else [TexImage(FormatFor(image.channels), image.width, image.height), GenerateMipmap]
  }

  /**
   * Texture::load(file, directory, type): the texture name is generated first and,
   * when decoding `directory/file` fails, is never deleted.
   */
  method LoadTexture(gl: Context, decode: Decoder, file: string, directory: string, kind: TextureType)
    returns (texture: Option<Texture>)
    requires gl.Valid()
    modifies gl
    ensures gl.Valid()
    ensures texture == LoadedTexture(old(gl.next), decode(directory + "/" + file), file, kind)
    ensures gl.next == old(gl.next) + 1 && gl.live == old(gl.live) + {old(gl.next)}
    ensures gl.trace == old(gl.trace) + LoadEvents(old(gl.next), decode(directory + "/" + file))
  {
    var id := gl.Gen();
    gl.Emit(BindTexture(id));
    var image := decode(directory + "/" + file);
    if image.DecodeFailed? {
      return None;
    }
    var format := RGB_DEFAULT;
    if image.channels == 1 {
      format := Red;
    } else if image.channels == 3 {
      format := Rgb;
    } else if image.channels == 4 {
      format := Rgba;
    }
    gl.Emit(TexImage(format, image.width, image.height));
    gl.Emit(GenerateMipmap);
    texture := Some(Texture(id, kind, file));
  }

  const RGB_DEFAULT: PixelFormat := Rgb

  /** The value of every field of a Mesh. */
  datatype MeshData = MeshData(
    vertices: seq<Vertex>, indices: seq<nat>, textures: seq<Texture>,
    vertexArray: nat, vertexBuffer: nat, elementBuffer: nat)

  /** A default-constructed or moved-from mesh: no data, handles 0. */
  const EMPTY_MESH: MeshData := MeshData([], [], [], 0, 0, 0)

  /** The GL calls of Mesh::create that concern its data (attribute layout is not modelled). */
  function CreateEvents(d: MeshData): seq<Event> {
    [BindVertexArray(d.vertexArray),
     BindBuffer(ArrayBuffer, d.vertexBuffer),
     BufferData(ArrayBuffer, |d.vertices|),
     BindBuffer(ElementArrayBuffer, d.elementBuffer),
     BufferData(ElementArrayBuffer, |d.indices|),
     BindVertexArray(0)]
  }

  /** The buffer most recently bound to `target` in `es`, if any. */
  function LastBuffer(es: seq<Event>, target: BufferTarget): Option<nat> {
    if es == [] then None
    else if es[|es| - 1].BindBuffer? && es[|es| - 1].target == target then Some(es[|es| - 1].buffer)
    else LastBuffer(es[..|es| - 1], target)
  }

  /** The vertex array most recently bound in `es`, if any. */
  function LastVertexArray(es: seq<Event>): Option<nat> {
    if es == [] then None
    else if es[|es| - 1].BindVertexArray? then Some(es[|es| - 1].vertexArray)
    else LastVertexArray(es[..|es| - 1])
  }

  /** The buffer of a mesh that belongs to a target, and the number of elements it holds. */
  function BufferFor(d: MeshData, target: BufferTarget): nat {
    match target
    case ArrayBuffer => d.vertexBuffer
    case ElementArrayBuffer => d.elementBuffer
  }

  function ElementsFor(d: MeshData, target: BufferTarget): nat {
    match target
    case ArrayBuffer => |d.vertices|
    case ElementArrayBuffer => |d.indices|
  }

  /**
   * Mesh::create uploads exactly twice, once per target: each upload goes into
   * the mesh's own buffer for that target, holds that target's data, and happens
   * while the mesh's vertex array is bound; the vertex array is unbound at the end.
   */
  lemma CreateUploadsIntoOwnBuffers(d: MeshData)
    ensures var e := CreateEvents(d);
      && (forall i :: 0 <= i < |e| && e[i].BufferData? ==>
            && LastBuffer(e[..i], e[i].target) == Some(BufferFor(d, e[i].target))
            && e[i].elements == ElementsFor(d, e[i].target)
            && LastVertexArray(e[..i]) == Some(d.vertexArray))
      && (forall target: BufferTarget :: exists i :: 0 <= i < |e| && e[i] == BufferData(target, ElementsFor(d, target)))
      && LastVertexArray(e) == Some(0)
  {
    var e := CreateEvents(d);
    assert e[..1] == [BindVertexArray(d.vertexArray)];
    assert e[..2] == e[..1] + [BindBuffer(ArrayBuffer, d.vertexBuffer)];
    assert e[..3] == e[..2] + [BufferData(ArrayBuffer, |d.vertices|)];
    assert e[..4] == e[..3] + [BindBuffer(ElementArrayBuffer, d.elementBuffer)];
    assert e[..|e| - 1] == e[..5];
    assert e[..2][..1] == e[..1] && e[..3][..2] == e[..2] && e[..4][..3] == e[..3];
    assert LastVertexArray(e[..1]) == Some(d.vertexArray);
    assert LastVertexArray(e[..2]) == Some(d.vertexArray);
    assert LastVertexArray(e[..3]) == Some(d.vertexArray);
    assert LastVertexArray(e[..4]) == Some(d.vertexArray);
    forall i | 0 <= i < |e| && e[i].BufferData?
      ensures LastBuffer(e[..i], e[i].target) == Some(BufferFor(d, e[i].target))
      ensures LastVertexArray(e[..i]) == Some(d.vertexArray)
    {
      assert i == 2 || i == 4;
    }
    forall target: BufferTarget
      ensures exists i :: 0 <= i < |e| && e[i] == BufferData(target, ElementsFor(d, target))
    {
      if target == ArrayBuffer { assert e[2] == BufferData(target, ElementsFor(d, target)); }
      else { assert e[4] == BufferData(target, ElementsFor(d, target)); }
    }
  }

  /** The sampler-name stem of each texture type. */
  function Stem(kind: TextureType): string {
    match kind
    case Diffuse => "texture_diffuse"
    case Specular => "texture_specular"
    case Normal => "texture_normal"
    case Height => "texture_height"
  }

  /** How many of `ts` have the given type. */
  function CountKind(ts: seq<Texture>, kind: TextureType): (n: nat)
    ensures n <= |ts|
  {
    if |ts| == 0 then 0
    else CountKind(ts[..|ts| - 1], kind) + (if ts[|ts| - 1].kind == kind then 1 else 0)
  }

  lemma CountKindStep(ts: seq<Texture>, i: nat, kind: TextureType)
    requires i < |ts|
    ensures CountKind(ts[..i + 1], kind) == CountKind(ts[..i], kind) + (if ts[i].kind == kind then 1 else 0)
  {
    assert ts[..i + 1][..i] == ts[..i];
  }

  /** The 1-based rank of texture i among the textures of its type, skipped ones included. */
  function Rank(ts: seq<Texture>, i: nat): nat
    requires i < |ts|
  {
    CountKind(ts[..i], ts[i].kind) + 1
  }

  /** The sampler uniform Mesh::draw looks up for texture i, e.g. "texture_diffuse2". */
  function SamplerName(ts: seq<Texture>, i: nat): string
    requires i < |ts|
  {
    Stem(ts[i].kind) + NatToString(Rank(ts, i))
  }

  /** Where the program keeps texture i's sampler (-1 when it has none). */
  function Location(ts: seq<Texture>, i: nat, program: nat, locate: (nat, string) -> int): int
    requires i < |ts|
  {
    locate(program, SamplerName(ts, i))
  }

  /**
   * Mesh::draw's calls for texture unit i, holding texture `id`, whose sampler is at
   * `location`: select the unit, then, if the sampler exists, set it and bind.
   */
  function TextureEvents(i: nat, id: nat, location: int): seq<Event> {
    [ActiveTexture(i)] + if location == -1 then [] else [Uniform(location, IntValue(i)), BindTexture(id)]
  }

  /** A texture's name together with the location of its sampler. */
  datatype Slot = Slot(id: nat, location: int)

  /** The slots of textures 0 .. n-1. */
  function Slots(ts: seq<Texture>, n: nat, program: nat, locate: (nat, string) -> int): (r: seq<Slot>)
    requires n <= |ts|
    ensures |r| == n
  {
    if n == 0 then [] else Slots(ts, n - 1, program, locate) + [Slot(ts[n - 1].id, Location(ts, n - 1, program, locate))]
  }

  /** Slot i holds texture i's name and its sampler's location. */
  lemma {:induction false} SlotAt(ts: seq<Texture>, n: nat, program: nat, locate: (nat, string) -> int, i: nat)
    requires i < n <= |ts|
    ensures Slots(ts, n, program, locate)[i] == Slot(ts[i].id, Location(ts, i, program, locate))
  {
    if i < n - 1 {
      SlotAt(ts, n - 1, program, locate, i);
    }
  }

  /** The calls for slots 0 .. n-1, in order. */
  function BindingEvents(slots: seq<Slot>, n: nat): seq<Event>
    requires n <= |slots|
  {
    if n == 0 then [] else BindingEvents(slots, n - 1) + TextureEvents(n - 1, slots[n - 1].id, slots[n - 1].location)
  }

  /** Every call Mesh::draw makes, with `program` the shader's id. */
  function DrawEvents(d: MeshData, program: nat, locate: (nat, string) -> int): seq<Event> {
    BindingEvents(Slots(d.textures, |d.textures|, program, locate), |d.textures|) + TailEvents(d)
  }

  // ---------------------------------------------------------------------------
  // Properties of the draw calls

  lemma {:induction false} CountKindGrows(ts: seq<Texture>, i: nat, j: nat)
    requires i < j <= |ts|
    ensures CountKind(ts[..j], ts[i].kind) >= CountKind(ts[..i], ts[i].kind) + 1
    decreases j
  {
    assert ts[..j][..j - 1] == ts[..j - 1];
    if j - 1 > i {
      CountKindGrows(ts, i, j - 1);
    } else {
      assert ts[..j][j - 1] == ts[i];
    }
  }

  /** The four stems differ at their ninth character ('d', 's', 'n', 'h'). */
  lemma StemsDiffer(a: TextureType, b: TextureType, x: string, y: string)
    requires Stem(a) + x == Stem(b) + y
    ensures a == b
  {
    assert (Stem(a) + x)[8] == Stem(a)[8];
    assert (Stem(b) + y)[8] == Stem(b)[8];
  }

  /** No two textures of a mesh look up the same sampler name. */
  lemma SamplerNamesDistinct(ts: seq<Texture>, i: nat, j: nat)
    requires i < |ts| && j < |ts| && i != j
    ensures SamplerName(ts, i) != SamplerName(ts, j)
  {
    if SamplerName(ts, i) == SamplerName(ts, j) {
      StemsDiffer(ts[i].kind, ts[j].kind, NatToString(Rank(ts, i)), NatToString(Rank(ts, j)));
      var stem := Stem(ts[i].kind);
      assert NatToString(Rank(ts, i)) == SamplerName(ts, i)[|stem|..];
      assert NatToString(Rank(ts, j)) == SamplerName(ts, j)[|stem|..];
      NatToStringInjective(Rank(ts, i), Rank(ts, j));
      if i < j {
        CountKindGrows(ts, i, j);
      } else {
        CountKindGrows(ts, j, i);
      }
      assert false;
    }
  }

  /** 0, 1, ..., n-1. */
  function Iota(n: nat): (r: seq<nat>)
    ensures |r| == n
  {
    if n == 0 then [] else Iota(n - 1) + [n - 1]
  }

  function UnitOf(e: Event): seq<nat> {
    if e.ActiveTexture? then [e.unit] else []
  }

  function DrawOf(e: Event): seq<nat> {
    if e.DrawElements? then [e.count] else []
  }

  function BoundOf(e: Event): seq<nat> {
    if e.BindTexture? then [e.texture] else []
  }

  /** The texture units selected, in order. */
  function Units(events: seq<Event>): seq<nat> {
    if |events| == 0 then [] else UnitOf(events[0]) + Units(events[1..])
  }

  /** The draw calls issued, as their element counts, in order. */
  function Draws(events: seq<Event>): seq<nat> {
    if |events| == 0 then [] else DrawOf(events[0]) + Draws(events[1..])
  }

  /** The textures bound, in order. */
  function Bound(events: seq<Event>): seq<nat> {
    if |events| == 0 then [] else BoundOf(events[0]) + Bound(events[1..])
  }

  lemma FiltersOne(e: Event)
    ensures Units([e]) == UnitOf(e) && Draws([e]) == DrawOf(e) && Bound([e]) == BoundOf(e)
  {
    assert [e][1..] == [];
  }

  lemma {:induction false} UnitsDistribute(a: seq<Event>, b: seq<Event>)
    ensures Units(a + b) == Units(a) + Units(b)
    decreases |a|
  {
    if |a| == 0 {
      assert a + b == b;
    } else {
      assert (a + b)[0] == a[0];
      assert (a + b)[1..] == a[1..] + b;
      UnitsDistribute(a[1..], b);
    }
  }

  lemma UnitsGlue(a: seq<Event>, b: seq<Event>, x: seq<nat>, y: seq<nat>)
    requires Units(a) == x && Units(b) == y
    ensures Units(a + b) == x + y
  {
    UnitsDistribute(a, b);
  }

  lemma {:induction false} DrawsDistribute(a: seq<Event>, b: seq<Event>)
    ensures Draws(a + b) == Draws(a) + Draws(b)
    decreases |a|
  {
    if |a| == 0 {
      assert a + b == b;
    } else {
      assert (a + b)[0] == a[0];
      assert (a + b)[1..] == a[1..] + b;
      DrawsDistribute(a[1..], b);
    }
  }

  lemma DrawsGlue(a: seq<Event>, b: seq<Event>, x: seq<nat>, y: seq<nat>)
    requires Draws(a) == x && Draws(b) == y
    ensures Draws(a + b) == x + y
  {
    DrawsDistribute(a, b);
  }

  lemma {:induction false} BoundDistribute(a: seq<Event>, b: seq<Event>)
    ensures Bound(a + b) == Bound(a) + Bound(b)
    decreases |a|
  {
    if |a| == 0 {
      assert a + b == b;
    } else {
      assert (a + b)[0] == a[0];
      assert (a + b)[1..] == a[1..] + b;
      BoundDistribute(a[1..], b);
    }
  }

  lemma BoundGlue(a: seq<Event>, b: seq<Event>, x: seq<nat>, y: seq<nat>)
    requires Bound(a) == x && Bound(b) == y
    ensures Bound(a + b) == x + y
  {
    BoundDistribute(a, b);
  }

  /** The textures whose sampler Mesh::draw finds, as their names, in order. */
  function FoundTextures(slots: seq<Slot>, n: nat): seq<nat>
    requires n <= |slots|
  {
    if n == 0 then [] else FoundTextures(slots, n - 1) + FoundAt(slots[n - 1].id, slots[n - 1].location)
  }

  /** Texture `id` if its sampler was found. */
  function FoundAt(id: nat, location: int): seq<nat> {
    if location == -1 then [] else [id]
  }

  /** The calls for one texture select its unit and nothing else, bind it exactly when found, and draw nothing. */
  lemma TextureFilters(i: nat, id: nat, location: int)
    ensures Units(TextureEvents(i, id, location)) == [i]
    ensures Bound(TextureEvents(i, id, location)) == FoundAt(id, location)
    ensures Draws(TextureEvents(i, id, location)) == []
  {
    FiltersOne(ActiveTexture(i));
    if location != -1 {
      var active, set_, bind := ActiveTexture(i), Uniform(location, IntValue(i)), BindTexture(id);
      FiltersOne(set_);
      FiltersOne(bind);
      assert TextureEvents(i, id, location) == [active] + [set_] + [bind];
      UnitsDistribute([active], [set_]);
      UnitsDistribute([active] + [set_], [bind]);
      BoundDistribute([active], [set_]);
      BoundDistribute([active] + [set_], [bind]);
      DrawsDistribute([active], [set_]);
      DrawsDistribute([active] + [set_], [bind]);
    }
  }

  lemma BindingStep(slots: seq<Slot>, n: nat)
    requires 0 < n <= |slots|
    ensures BindingEvents(slots, n) ==
      BindingEvents(slots, n - 1) + TextureEvents(n - 1, slots[n - 1].id, slots[n - 1].location)
  {
  }

  /** Texture i selects unit i, whether or not its sampler is found. */
  lemma {:induction false} BindingUnits(slots: seq<Slot>, n: nat)
    requires n <= |slots|
    ensures Units(BindingEvents(slots, n)) == Iota(n)
  {
    if n > 0 {
      BindingUnits(slots, n - 1);
      UnitsStep(slots, n);
    }
  }

  lemma UnitsStep(slots: seq<Slot>, n: nat)
    requires 0 < n <= |slots|
    requires Units(BindingEvents(slots, n - 1)) == Iota(n - 1)
    ensures Units(BindingEvents(slots, n)) == Iota(n)
  {
    BindingStep(slots, n);
    TextureFilters(n - 1, slots[n - 1].id, slots[n - 1].location);
    UnitsGlue(BindingEvents(slots, n - 1), TextureEvents(n - 1, slots[n - 1].id, slots[n - 1].location), Iota(n - 1), [n - 1]);
  }

  /** Exactly the textures whose sampler is found are bound, in list order. */
  lemma {:induction false} BindingBound(slots: seq<Slot>, n: nat)
    requires n <= |slots|
    ensures Bound(BindingEvents(slots, n)) == FoundTextures(slots, n)
  {
    if n > 0 {
      BindingBound(slots, n - 1);
      BoundStep(slots, n);
    }
  }

  lemma BoundStep(slots: seq<Slot>, n: nat)
    requires 0 < n <= |slots|
    requires Bound(BindingEvents(slots, n - 1)) == FoundTextures(slots, n - 1)
    ensures Bound(BindingEvents(slots, n)) == FoundTextures(slots, n)
  {
    BindingStep(slots, n);
    TextureFilters(n - 1, slots[n - 1].id, slots[n - 1].location);
    BoundGlue(BindingEvents(slots, n - 1), TextureEvents(n - 1, slots[n - 1].id, slots[n - 1].location), FoundTextures(slots, n - 1), FoundAt(slots[n - 1].id, slots[n - 1].location));
  }

  /** Binding the textures draws nothing. */
  lemma {:induction false} BindingDraws(slots: seq<Slot>, n: nat)
    requires n <= |slots|
    ensures Draws(BindingEvents(slots, n)) == []
  {
    if n > 0 {
      BindingDraws(slots, n - 1);
      DrawsStep(slots, n);
    }
  }

  lemma DrawsStep(slots: seq<Slot>, n: nat)
    requires 0 < n <= |slots|
    requires Draws(BindingEvents(slots, n - 1)) == []
    ensures Draws(BindingEvents(slots, n)) == []
  {
    BindingStep(slots, n);
    TextureFilters(n - 1, slots[n - 1].id, slots[n - 1].location);
    DrawsGlue(BindingEvents(slots, n - 1), TextureEvents(n - 1, slots[n - 1].id, slots[n - 1].location), [], []);
  }

  /** The closing calls of Mesh::draw. */
  function TailEvents(d: MeshData): seq<Event> {
    [BindVertexArray(d.vertexArray), DrawElements(|d.indices|), BindVertexArray(0), ActiveTexture(0)]
  }

  lemma TailFilters(d: MeshData)
    ensures Units(TailEvents(d)) == [0]
    ensures Draws(TailEvents(d)) == [|d.indices|]
    ensures Bound(TailEvents(d)) == []
  {
    var a, b, c, z := BindVertexArray(d.vertexArray), DrawElements(|d.indices|), BindVertexArray(0), ActiveTexture(0);
    FiltersOne(a);
    FiltersOne(b);
    FiltersOne(c);
    FiltersOne(z);
    assert TailEvents(d) == [a] + [b] + [c] + [z];
    UnitsDistribute([a], [b]);
    UnitsDistribute([a] + [b], [c]);
    UnitsDistribute([a] + [b] + [c], [z]);
    DrawsDistribute([a], [b]);
    DrawsDistribute([a] + [b], [c]);
    DrawsDistribute([a] + [b] + [c], [z]);
    BoundDistribute([a], [b]);
    BoundDistribute([a] + [b], [c]);
    BoundDistribute([a] + [b] + [c], [z]);
  }

  /** A mesh draw selects units 0 .. n-1, one per texture, then returns to unit 0. */
  lemma DrawUnits(d: MeshData, program: nat, locate: (nat, string) -> int)
    ensures Units(DrawEvents(d, program, locate)) == Iota(|d.textures|) + [0]
  {
    var slots := Slots(d.textures, |d.textures|, program, locate);
    BindingUnits(slots, |d.textures|);
    TailFilters(d);
    UnitsGlue(BindingEvents(slots, |d.textures|), TailEvents(d), Iota(|d.textures|), [0]);
  }

  /** A mesh draw binds exactly the textures whose sampler is found, in list order. */
  lemma DrawBound(d: MeshData, program: nat, locate: (nat, string) -> int)
    ensures Bound(DrawEvents(d, program, locate)) == FoundTextures(Slots(d.textures, |d.textures|, program, locate), |d.textures|)
  {
    var slots := Slots(d.textures, |d.textures|, program, locate);
    BindingBound(slots, |d.textures|);
    TailFilters(d);
    BoundGlue(BindingEvents(slots, |d.textures|), TailEvents(d), FoundTextures(slots, |d.textures|), []);
  }

  /** A mesh draw issues exactly one draw call, over all its indices. */
  lemma DrawOnce(d: MeshData, program: nat, locate: (nat, string) -> int)
    ensures Draws(DrawEvents(d, program, locate)) == [|d.indices|]
  {
    var slots := Slots(d.textures, |d.textures|, program, locate);
    BindingDraws(slots, |d.textures|);
    TailFilters(d);
    DrawsGlue(BindingEvents(slots, |d.textures|), TailEvents(d), [], [|d.indices|]);
  }

  /** The last two calls of a mesh draw unbind the vertex array and return to unit 0. */
  lemma DrawEnds(d: MeshData, program: nat, locate: (nat, string) -> int)
    ensures var e := DrawEvents(d, program, locate);
      |e| >= 4 && e[|e| - 2] == BindVertexArray(0) && e[|e| - 1] == ActiveTexture(0)
  {
    var bindings := BindingEvents(Slots(d.textures, |d.textures|, program, locate), |d.textures|);
    var e := bindings + TailEvents(d);
    assert e[|e| - 2] == TailEvents(d)[2];
    assert e[|e| - 1] == TailEvents(d)[3];
  }

  /** The four counters of Mesh::draw hold one more than the number of textures of their type among the first i. */
  predicate Counted(ts: seq<Texture>, i: nat, d: nat, s: nat, n: nat, h: nat)
    requires i <= |ts|
  {
    d == CountKind(ts[..i], Diffuse) + 1 && s == CountKind(ts[..i], Specular) + 1 &&
    n == CountKind(ts[..i], Normal) + 1 && h == CountKind(ts[..i], Height) + 1
  }

  /** Naming texture i by its type's counter gives its sampler name, when the counters count the earlier textures. */
  lemma NameOfCounter(ts: seq<Texture>, i: nat, d: nat, s: nat, n: nat, h: nat)
    requires i < |ts|
    requires Counted(ts, i, d, s, n, h)
    ensures Stem(ts[i].kind) + NatToString(Counter(ts[i].kind, d, s, n, h)) == SamplerName(ts, i)
  {
  }

  /** Appending slot i's calls to a trace that ends with slots 0 .. i-1 gives one that ends with 0 .. i. */
  lemma BindingAppend(slots: seq<Slot>, i: nat, start: seq<Event>, before: seq<Event>, after: seq<Event>)
    requires i < |slots|
    requires before == start + BindingEvents(slots, i)
    requires after == before + TextureEvents(i, slots[i].id, slots[i].location)
    ensures after == start + BindingEvents(slots, i + 1)
  {
    BindingStep(slots, i + 1);
  }

  /** The per-type counter of `kind` among the four. */
  function Counter(kind: TextureType, d: nat, s: nat, n: nat, h: nat): nat {
    match kind
    case Diffuse => d
    case Specular => s
    case Normal => n
    case Height => h
  }

  /**
   * One step of Mesh::draw's naming: the sampler name is the type's stem and its
   * counter, and only that type's counter is incremented.
   */
  method NextSamplerName(kind: TextureType, diffuseNr: nat, specularNr: nat, normalNr: nat, heightNr: nat)
    returns (name: string, d: nat, s: nat, n: nat, h: nat)
    ensures name == Stem(kind) + NatToString(Counter(kind, diffuseNr, specularNr, normalNr, heightNr))
    ensures d == diffuseNr + (if kind == Diffuse then 1 else 0)
    ensures s == specularNr + (if kind == Specular then 1 else 0)
    ensures n == normalNr + (if kind == Normal then 1 else 0)
    ensures h == heightNr + (if kind == Height then 1 else 0)
  {
    d, s, n, h := diffuseNr, specularNr, normalNr, heightNr;
    match kind {
      case Diffuse =>
        name := "texture_diffuse" + NatToString(diffuseNr);
        d := diffuseNr + 1;
      case Specular =>
        name := "texture_specular" + NatToString(specularNr);
        s := specularNr + 1;
      case Normal =>
        name := "texture_normal" + NatToString(normalNr);
        n := normalNr + 1;
      case Height =>
        name := "texture_height" + NatToString(heightNr);
        h := heightNr + 1;
    }
  }

  class Mesh {
    var vertices: seq<Vertex>
    var indices: seq<nat>
    var textures: seq<Texture>
    var vertexArray: nat
    var vertexBuffer: nat
    var elementBuffer: nat

    function Data(): MeshData
      reads this
    {
      MeshData(vertices, indices, textures, vertexArray, vertexBuffer, elementBuffer)
    }

    /** Mesh() = default: empty data, handles 0. */
    constructor ()
      ensures Data() == EMPTY_MESH
    {
      vertices, indices, textures := [], [], [];
      vertexArray, vertexBuffer, elementBuffer := 0, 0, 0;
    }

    /**
     * Mesh::create: three fresh GL names (vertex array, vertex buffer, element
     * buffer) and copies of the three lists, unchanged.
     */
    static method Create(gl: Context, vertices: seq<Vertex>, indices: seq<nat>, textures: seq<Texture>)
      returns (mesh: Mesh)
      requires gl.Valid()
      modifies gl
      ensures gl.Valid() && fresh(mesh)
      ensures mesh.Data() == MeshData(vertices, indices, textures, old(gl.next), old(gl.next) + 1, old(gl.next) + 2)
      ensures gl.next == old(gl.next) + 3 && gl.live == old(gl.live) + {old(gl.next), old(gl.next) + 1, old(gl.next) + 2}
      ensures gl.trace == old(gl.trace) + CreateEvents(mesh.Data())
    {
      var vertexArray := gl.Gen();
      gl.Emit(BindVertexArray(vertexArray));
      var vertexBuffer := gl.Gen();
      gl.Emit(BindBuffer(ArrayBuffer, vertexBuffer));
      gl.Emit(BufferData(ArrayBuffer, |vertices|));
      var elementBuffer := gl.Gen();
      gl.Emit(BindBuffer(ElementArrayBuffer, elementBuffer));
      gl.Emit(BufferData(ElementArrayBuffer, |indices|));
      gl.Emit(BindVertexArray(0));
      ghost var d := MeshData(vertices, indices, textures, vertexArray, vertexBuffer, elementBuffer);
      assert gl.trace == old(gl.trace) + CreateEvents(d);
      mesh := new Mesh();
      mesh.vertices, mesh.indices, mesh.textures := vertices, indices, textures;
      mesh.vertexArray, mesh.vertexBuffer, mesh.elementBuffer := vertexArray, vertexBuffer, elementBuffer;
      assert mesh.Data() == d;
    }

    /** The destructor: the three names are deleted (0 for a moved-from mesh, which is no-op). */
    method Destroy(gl: Context)
      requires gl.Valid()
      modifies gl
      ensures gl.Valid()
      ensures gl.live == old(gl.live) - {vertexArray, vertexBuffer, elementBuffer}
      ensures gl.next == old(gl.next) && gl.trace == old(gl.trace)
    {
      gl.Delete(vertexArray);
      gl.Delete(vertexBuffer);
      gl.Delete(elementBuffer);
    }

    /** The move constructor: a default mesh swaps all six fields with `other`. */
    constructor MoveFrom(other: Mesh)
      modifies other
      ensures Data() == old(other.Data()) && other.Data() == EMPTY_MESH
    {
      vertices, indices, textures := other.vertices, other.indices, other.textures;
      vertexArray, vertexBuffer, elementBuffer := other.vertexArray, other.vertexBuffer, other.elementBuffer;
      new;
      other.vertices, other.indices, other.textures := [], [], [];
      other.vertexArray, other.vertexBuffer, other.elementBuffer := 0, 0, 0;
    }

    /** Move assignment: all six fields are swapped. */
    method MoveAssign(other: Mesh)
      modifies this, other
      ensures Data() == old(other.Data()) && other.Data() == old(Data())
    {
      vertices, other.vertices := other.vertices, vertices;
      indices, other.indices := other.indices, indices;
      textures, other.textures := other.textures, textures;
      vertexArray, other.vertexArray := other.vertexArray, vertexArray;
      vertexBuffer, other.vertexBuffer := other.vertexBuffer, vertexBuffer;
      elementBuffer, other.elementBuffer := other.elementBuffer, elementBuffer;
    }

    /**
     * One pass of Mesh::draw's texture loop: select unit i, name the sampler by the
     * texture type's counter and, if the program has that sampler, point it at unit i
     * and bind the texture; a missing sampler skips the rest of the pass but still
     * advances the counter.
     */
    method BindUnit(gl: Context, shader: Shader, i: nat, diffuseNr: nat, specularNr: nat, normalNr: nat, heightNr: nat)
      returns (d: nat, s: nat, n: nat, h: nat)
      requires i < |textures|
      requires Counted(textures, i, diffuseNr, specularNr, normalNr, heightNr)
      modifies gl
      ensures Counted(textures, i + 1, d, s, n, h)
      ensures gl.trace == old(gl.trace) + TextureEvents(i, textures[i].id, Location(textures, i, shader.id, gl.locate))
      ensures gl.next == old(gl.next) && gl.live == old(gl.live)
    {
      CountKindStep(textures, i, Diffuse);
      CountKindStep(textures, i, Specular);
      CountKindStep(textures, i, Normal);
      CountKindStep(textures, i, Height);
      NameOfCounter(textures, i, diffuseNr, specularNr, normalNr, heightNr);
      gl.Emit(ActiveTexture(i));
      var name;
      name, d, s, n, h := NextSamplerName(textures[i].kind, diffuseNr, specularNr, normalNr, heightNr);
      var location := gl.locate(shader.GetId(), name);
      if location == -1 {
        return;
      }
      gl.Emit(Uniform(location, IntValue(i)));
      gl.Emit(BindTexture(textures[i].id));
    }

    /** Mesh::draw(shader). */
    method Draw(gl: Context, shader: Shader)
      modifies gl
      ensures gl.trace == old(gl.trace) + DrawEvents(Data(), shader.id, gl.locate)
      ensures gl.next == old(gl.next) && gl.live == old(gl.live)
    {
      var diffuseNr, specularNr, normalNr, heightNr := 1, 1, 1, 1;
      var idx := 0;
      ghost var slots := Slots(textures, |textures|, shader.id, gl.locate);
      while idx < |textures|
        invariant 0 <= idx <= |textures|
        invariant Counted(textures, idx, diffuseNr, specularNr, normalNr, heightNr)
        invariant gl.trace == old(gl.trace) + BindingEvents(slots, idx)
        invariant gl.next == old(gl.next) && gl.live == old(gl.live)
      {
        SlotAt(textures, |textures|, shader.id, gl.locate, idx);
        ghost var before := gl.trace;
        diffuseNr, specularNr, normalNr, heightNr := BindUnit(gl, shader, idx, diffuseNr, specularNr, normalNr, heightNr);
        BindingAppend(slots, idx, old(gl.trace), before, gl.trace);
        idx := idx + 1;
      }
      gl.Emit(BindVertexArray(vertexArray));
      gl.Emit(DrawElements(|indices|));
      gl.Emit(BindVertexArray(0));
      gl.Emit(ActiveTexture(0));
      assert gl.trace == old(gl.trace) + BindingEvents(slots, |textures|) + TailEvents(Data());
    }
  }
}
