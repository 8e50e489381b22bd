/**
 * An abstract OpenGL context. Object names (textures, vertex arrays, buffers,
 * shaders, programs) are handed out by one counter and never reused; `live` is the
 * set of names created and not yet deleted; `trace` records the calls whose order
 * and arguments the program's drawing depends on. The answers GL gives about
 * shaders (uniform locations, compile and link status) are oracles fixed when the
 * context is made.
 */
module Gl {
  import opened Geometry

  datatype PixelFormat = Red | Rgb | Rgba

  datatype ShaderStage = VertexStage | FragmentStage

  datatype BufferTarget = ArrayBuffer | ElementArrayBuffer

  datatype PolygonMode = Fill | Line

  datatype UniformValue =
    | IntValue(i: int)
    | FloatValue(f: real)
    | Vec3Value(v: Vec3)
    | Mat4Value(m: Mat4)

  datatype Event =
    | BindTexture(texture: nat)
    | TexImage(format: PixelFormat, width: int, height: int)
    | GenerateMipmap
    | BindVertexArray(vertexArray: nat)
    | BindBuffer(target: BufferTarget, buffer: nat)
    | BufferData(target: BufferTarget, elements: nat)
    | ActiveTexture(unit: nat)
    | Uniform(location: int, value: UniformValue)
    | DrawElements(count: nat)
    | UseProgram(program: nat)
    | SetPolygonMode(mode: PolygonMode)
    | Viewport(width: int, height: int)
    | Clear

  /** The mutable part of a context, as a value. */
  datatype Snapshot = Snapshot(next: nat, live: set<nat>, trace: seq<Event>)

  class Context {
    /** glGetUniformLocation(program, name); -1 when the program has no such uniform. */
    const locate: (nat, string) -> int
    /** GL_COMPILE_STATUS of a shader of the given stage compiled from the given source. */
    const compiles: (ShaderStage, string) -> bool
    /** GL_LINK_STATUS of a program linked from the given vertex and fragment sources. */
    const links: (string, string) -> bool

    var next: nat
    var live: set<nat>
    var trace: seq<Event>

    /** 0 is never a live name, so deleting name 0 does nothing, as in GL. */
    ghost predicate Valid()
      reads this
    {
      0 < next && forall n :: n in live ==> 0 < n < next
    }

    constructor (locate: (nat, string) -> int, compiles: (ShaderStage, string) -> bool,
                 links: (string, string) -> bool)
      ensures Valid()
      ensures this.locate == locate && this.compiles == compiles && this.links == links
      ensures next == 1 && live == {} && trace == []
    {
      this.locate, this.compiles, this.links := locate, compiles, links;
      next, live, trace := 1, {}, [];
    }

    function Snap(): Snapshot
      reads this
    {
      Snapshot(next, live, trace)
    }

    /** glGen* / glCreate*: a fresh name, live from now on. */
    method Gen() returns (name: nat)
      requires Valid()
      modifies this
      ensures Valid()
      ensures name == old(next) && name > 0
      ensures next == old(next) + 1 && live == old(live) + {name} && trace == old(trace)
    {
      name := next;
      next := next + 1;
      live := live + {name};
    }

    /** glDelete*: the name is no longer live (a no-op for 0 or an unknown name). */
    method Delete(name: nat)
      requires Valid()
      modifies this
      ensures Valid()
      ensures live == old(live) - {name} && next == old(next) && trace == old(trace)
    {
      live := live - {name};
    }

    method Emit(e: Event)
      modifies this
      ensures trace == old(trace) + [e] && next == old(next) && live == old(live)
    {
      trace := trace + [e];
    }
  }
}
