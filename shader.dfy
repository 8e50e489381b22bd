/**
 * Shader program construction and ownership. The two source files are read
 * through an abstract C stdio (`FileSystem`: which paths exist, their contents,
 * which FILE handles are still open); compile and link status come from the GL
 * context's oracles.
 */
module Shaders {
  import opened Wrappers
  import opened Geometry
  import opened Gl

  /** The C stdio calls Shader::create makes, over a fixed set of readable files. */
  class FileSystem {
    /** The files fopen can open, with their contents. */
    const files: map<string, string>

    var next: nat
    /** Handles returned by fopen and not yet passed to fclose. */
    var open: set<nat>
    /** The path each handle was opened on. */
    var paths: map<nat, string>

    ghost predicate Valid()
      reads this
    {
      && 0 < next
      && (forall h :: h in paths ==> 0 < h < next && paths[h] in files)
      && (forall h :: h in open ==> h in paths)
    }

    constructor (files: map<string, string>)
      ensures Valid() && this.files == files && next == 1 && open == {} && paths == map[]
    {
      this.files := files;
      next, open, paths := 1, {}, map[];
    }

    /** fopen(path, "rb"): a fresh open handle, or None (nullptr) when the file does not exist. */
    method Open(path: string) returns (handle: Option<nat>)
      requires Valid()
      modifies this
      ensures Valid()
      ensures path !in files ==> handle == None && next == old(next) && open == old(open) && paths == old(paths)
      ensures path in files ==>
        && handle == Some(old(next))
        && next == old(next) + 1
        && open == old(open) + {old(next)}
        && paths == old(paths)[old(next) := path]
    {
      if path in files {
        handle := Some(next);
        open := open + {next};
        paths := paths[next := path];
        next := next + 1;
      } else {
        handle := None;
      }
    }

    /**
     * fseek/ftell for the size, then fread(buffer, size, 1, file): one element (the
     * whole file) is read, except that an element size of 0 makes fread return 0.
     */
    method Read(handle: nat) returns (count: nat, text: string)
      requires Valid() && handle in open
      ensures text == files[paths[handle]]
      ensures count == if |text| == 0 then 0 else 1
    {
      text := files[paths[handle]];
      count := if |text| == 0 then 0 else 1;
    }

    /** fclose. */
    method Close(handle: nat)
      requires Valid()
      modifies this
      ensures Valid()
      ensures open == old(open) - {handle} && next == old(next) && paths == old(paths)
    {
      open := open - {handle};
    }
  }

  /** The steps of Shader::create, in the order it takes them. */
  datatype Step =
    | OpenVertex | ReadVertex | OpenFragment | ReadFragment
    | CompileVertex | CompileFragment | LinkProgram

  function Rank(step: Step): nat {
    match step
    case OpenVertex => 0
    case ReadVertex => 1
    case OpenFragment => 2
    case ReadFragment => 3
    case CompileVertex => 4
    case CompileFragment => 5
    case LinkProgram => 6
  }

  datatype Outcome = FailedAt(step: Step) | Linked

  /** The contents read from a path, or "" when there is none. */
  function Source(files: map<string, string>, path: string): string {
    if path in files then files[path] else ""
  }

  /** Whether one step succeeds on its own terms (given that the steps before it did). */
  predicate Succeeds(step: Step, files: map<string, string>, compiles: (ShaderStage, string) -> bool,
                     links: (string, string) -> bool, vertexPath: string, fragmentPath: string)
  {
    match step
    case OpenVertex => vertexPath in files
    case ReadVertex => Source(files, vertexPath) != ""
    case OpenFragment => fragmentPath in files
    case ReadFragment => Source(files, fragmentPath) != ""
    case CompileVertex => compiles(VertexStage, Source(files, vertexPath))
    case CompileFragment => compiles(FragmentStage, Source(files, fragmentPath))
    case LinkProgram => links(Source(files, vertexPath), Source(files, fragmentPath))
  }

  /** The outcome of Shader::create, step by step in the order of the code. */
  function BuildOutcome(files: map<string, string>, compiles: (ShaderStage, string) -> bool,
                        links: (string, string) -> bool, vertexPath: string, fragmentPath: string): Outcome
  {
    if vertexPath !in files then FailedAt(OpenVertex)
    else if |files[vertexPath]| == 0 then FailedAt(ReadVertex)
    else if fragmentPath !in files then FailedAt(OpenFragment)
    else if |files[fragmentPath]| == 0 then FailedAt(ReadFragment)
    else LinkOutcome(compiles, links, files[vertexPath], files[fragmentPath])
  }

  /** The GL half of the outcome, once both sources are read. */
  function LinkOutcome(compiles: (ShaderStage, string) -> bool, links: (string, string) -> bool,
                       vertexSource: string, fragmentSource: string): Outcome
  {
    if !compiles(VertexStage, vertexSource) then FailedAt(CompileVertex)
    else if !compiles(FragmentStage, fragmentSource) then FailedAt(CompileFragment)
    else if !links(vertexSource, fragmentSource) then FailedAt(LinkProgram)
    else Linked
  }

  /**
   * The first step that fails, in the fixed order, decides the outcome: that step
   * does not succeed and every earlier one does; the shader is linked exactly when
   * every step succeeds.
   */
  lemma FirstFailureDecides(files: map<string, string>, compiles: (ShaderStage, string) -> bool,
                            links: (string, string) -> bool, vertexPath: string, fragmentPath: string)
    ensures var o := BuildOutcome(files, compiles, links, vertexPath, fragmentPath);
      && (o.FailedAt? ==> !Succeeds(o.step, files, compiles, links, vertexPath, fragmentPath))
      && (o.FailedAt? ==> forall s: Step :: Rank(s) < Rank(o.step) ==> Succeeds(s, files, compiles, links, vertexPath, fragmentPath))
      && (o == Linked <==> forall s: Step :: Succeeds(s, files, compiles, links, vertexPath, fragmentPath))
  {
  }

  /** An existing but empty vertex source fails at the read, before anything else is looked at. */
  lemma EmptyVertexSourceFailsRead(files: map<string, string>, compiles: (ShaderStage, string) -> bool,
                                   links: (string, string) -> bool, vertexPath: string, fragmentPath: string)
    requires vertexPath in files && files[vertexPath] == ""
    ensures BuildOutcome(files, compiles, links, vertexPath, fragmentPath) == FailedAt(ReadVertex)
  {
  }

  /**
   * The FILE handles left open: on a failed read the file just opened is never
   * closed. `first` is the handle the vertex file gets.
   */
  function LeakedFiles(o: Outcome, first: nat): set<nat> {
    match o
    case FailedAt(ReadVertex) => {first}
    case FailedAt(ReadFragment) => {first + 1}
    case _ => {}
  }

  /**
   * The GL objects still live after Shader::create. `first` is the vertex shader's
   * name, the fragment shader and the program follow. On a compile or link failure
   * nothing created so far is deleted; on success only the program remains.
   */
  function LiveObjects(o: Outcome, first: nat): set<nat> {
    match o
    case FailedAt(CompileVertex) => {first}
    case FailedAt(CompileFragment) => {first, first + 1}
    case FailedAt(LinkProgram) => {first, first + 1, first + 2}
    case Linked => {first + 2}
    case _ => {}
  }

  /** What a checked setter (setMat4, setVec3) sends: nothing when the uniform is missing. */
  function CheckedUniform(location: int, value: UniformValue): (events: seq<Event>)
    ensures location == -1 <==> events == []
  {
    if location == -1 then [] else [Uniform(location, value)]
  }

  class Shader {
    var id: nat

    /** Shader(uint32_t id). */
    constructor FromId(id: nat)
      ensures this.id == id
    {
      this.id := id;
    }

    /** The move constructor: a new Shader (id 0) swaps ids with `other`. */
    constructor MoveFrom(other: Shader)
      modifies other
      ensures id == old(other.id) && other.id == 0
    {
      id := other.id;
      new;
      other.id := 0;
    }

    /** Move assignment: the two ids are swapped. */
    method MoveAssign(other: Shader)
      modifies this, other
      ensures id == old(other.id) && other.id == old(id)
    {
      id, other.id := other.id, id;
    }

    /** The destructor: glDeleteProgram(id), which does nothing for a moved-from 0. */
    method Destroy(gl: Context)
      requires gl.Valid()
      modifies gl
      ensures gl.Valid()
      ensures gl.live == old(gl.live) - {id} && gl.next == old(gl.next) && gl.trace == old(gl.trace)
    {
      gl.Delete(id);
    }

    function GetId(): nat
      reads this
    {
      id
    }

    method Use(gl: Context)
      modifies gl
      ensures gl.trace == old(gl.trace) + [UseProgram(id)]
      ensures gl.next == old(gl.next) && gl.live == old(gl.live)
    {
      gl.Emit(UseProgram(id));
    }

    /** setBool: the located value goes straight to glUniform1i, -1 included. */
    method SetBool(gl: Context, name: string, value: bool)
      modifies gl
      ensures gl.trace == old(gl.trace) + [Uniform(gl.locate(id, name), IntValue(if value then 1 else 0))]
      ensures gl.next == old(gl.next) && gl.live == old(gl.live)
    {
      gl.Emit(Uniform(gl.locate(id, name), IntValue(if value then 1 else 0)));
    }

    /** setInt: unchecked, like setBool. */
    method SetInt(gl: Context, name: string, value: int)
      modifies gl
      ensures gl.trace == old(gl.trace) + [Uniform(gl.locate(id, name), IntValue(value))]
      ensures gl.next == old(gl.next) && gl.live == old(gl.live)
    {
      gl.Emit(Uniform(gl.locate(id, name), IntValue(value)));
    }

    /** setFloat: unchecked, like setBool. */
    method SetFloat(gl: Context, name: string, value: real)
      modifies gl
      ensures gl.trace == old(gl.trace) + [Uniform(gl.locate(id, name), FloatValue(value))]
      ensures gl.next == old(gl.next) && gl.live == old(gl.live)
    {
      gl.Emit(Uniform(gl.locate(id, name), FloatValue(value)));
    }

    /** setMat4: a no-op when the uniform is not found. */
    method SetMat4(gl: Context, name: string, value: Mat4)
      modifies gl
      ensures gl.trace == old(gl.trace) + CheckedUniform(gl.locate(id, name), Mat4Value(value))
      ensures gl.next == old(gl.next) && gl.live == old(gl.live)
    {
      var location := gl.locate(id, name);
      if location == -1 {
        return;
      }
      gl.Emit(Uniform(location, Mat4Value(value)));
    }

    /** setVec3: a no-op when the uniform is not found. */
    method SetVec3(gl: Context, name: string, value: Vec3)
      modifies gl
      ensures gl.trace == old(gl.trace) + CheckedUniform(gl.locate(id, name), Vec3Value(value))
      ensures gl.next == old(gl.next) && gl.live == old(gl.live)
    {
      var location := gl.locate(id, name);
      if location == -1 {
        return;
      }
      gl.Emit(Uniform(location, Vec3Value(value)));
    }
  }

  /**
   * The first half of Shader::create for one stage: fopen, then fread of the
   * whole file, then fclose. A failed read returns before the fclose, so that
   * handle stays open.
   */
  method ReadSource(fs: FileSystem, path: string) returns (source: Option<string>)
    requires fs.Valid()
    modifies fs
    ensures fs.Valid()
    ensures source.Some? <==> path in fs.files && fs.files[path] != ""
    ensures source.Some? ==> source.value == fs.files[path]
    ensures fs.next == old(fs.next) + (if path in fs.files then 1 else 0)
    ensures fs.open == old(fs.open) + (if path in fs.files && fs.files[path] == "" then {old(fs.next)} else {})
  {
    var file := fs.Open(path);
    if file == None {
      return None;
    }
    var count, text := fs.Read(file.value);
    if count != 1 {
      return None;
    }
    fs.Close(file.value);
    source := Some(text);
  }

  /**
   * Shader::create(vertexPath, fragmentPath). The result exists exactly when every
   * step succeeds; the handles and GL objects a failure leaves behind are those of
   * LeakedFiles and LiveObjects.
   */
  method Create(fs: FileSystem, gl: Context, vertexPath: string, fragmentPath: string)
    returns (shader: Option<Shader>)
    requires fs.Valid() && gl.Valid()
    modifies fs, gl
    ensures fs.Valid() && gl.Valid()
    ensures var o := BuildOutcome(fs.files, gl.compiles, gl.links, vertexPath, fragmentPath);
      && (shader.Some? <==> o == Linked)
      && (shader.Some? ==> fresh(shader.value) && shader.value.id == old(gl.next) + 2)
      && fs.open == old(fs.open) + LeakedFiles(o, old(fs.next))
      && (o.FailedAt? && Rank(o.step) < Rank(CompileVertex) ==> gl.next == old(gl.next))
      && gl.live == old(gl.live) + LiveObjects(o, old(gl.next))
    ensures gl.trace == old(gl.trace)
  {
    ghost var o := BuildOutcome(fs.files, gl.compiles, gl.links, vertexPath, fragmentPath);
    var vertexSource := ReadSource(fs, vertexPath);
    if vertexSource == None {
      return None;
    }
    var fragmentSource := ReadSource(fs, fragmentPath);
    if fragmentSource == None {
      return None;
    }
    assert fs.open == old(fs.open);
    shader := CompileAndLink(gl, vertexSource.value, fragmentSource.value);
  }

  /**
   * The second half of Shader::create: compile both stages, then link, returning at
   * the first failure without deleting what was created; on success the two shader
   * objects are deleted and only the program stays.
   */
  method CompileAndLink(gl: Context, vertexSource: string, fragmentSource: string) returns (shader: Option<Shader>)
    requires gl.Valid()
    modifies gl
    ensures gl.Valid()
    ensures var o := LinkOutcome(gl.compiles, gl.links, vertexSource, fragmentSource);
      && (shader.Some? <==> o == Linked)
      && (shader.Some? ==> fresh(shader.value) && shader.value.id == old(gl.next) + 2)
      && gl.live == old(gl.live) + LiveObjects(o, old(gl.next))
    ensures gl.trace == old(gl.trace)
  {
    var vertexShader := gl.Gen();
    if !gl.compiles(VertexStage, vertexSource) {
      return None;
    }
    var fragmentShader := gl.Gen();
    if !gl.compiles(FragmentStage, fragmentSource) {
      return None;
    }
    var id := gl.Gen();
    if !gl.links(vertexSource, fragmentSource) {
      return None;
    }
    gl.Delete(vertexShader);
    gl.Delete(fragmentShader);
    var program := new Shader.FromId(id);
    shader := Some(program);
  }
}
