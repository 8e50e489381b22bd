/**
 * Model.cpp: a model built from an imported scene. The scene the importer returns
 * is a value (an AiScene); building the model walks its node tree in pre-order,
 * turns each referenced mesh into a Mesh and resolves each material's texture
 * references through a cache of the textures loaded so far.
 *
 * The pure functions below are the specification: they thread a Loader (the cache
 * and the GL context's mutable state) through the walk. The Model class at the end
 * does the same work with loops and in-place appends, and its methods are proved
 * equal to these functions.
 */
module Models {
  import opened Wrappers
  import opened Text
  import opened Geometry
  import opened Gl
  import opened Shaders
  import opened Meshes

  /** aiString holds at most MAXLEN - 1 = 1023 characters. */
  const AI_MAXLEN: nat := 1024

  /** The importer's texture slots the model reads. */
  datatype AiTextureType = AiDiffuse | AiSpecular | AiHeight | AiAmbient

  /** A material: the texture file references of each slot, in slot order. */
  datatype AiMaterial = AiMaterial(slots: map<AiTextureType, seq<string>>)

  /** A mesh as imported: optional normal and texture-coordinate arrays, faces of indices. */
  datatype AiMesh = AiMesh(
    vertices: seq<Vec3>, normals: Option<seq<Vec3>>, texCoords: Option<seq<Vec3>>,
    faces: seq<seq<nat>>, materialIndex: nat)

  datatype AiNode = AiNode(meshes: seq<nat>, children: seq<AiNode>)

  /** `mFlags & AI_SCENE_FLAGS_INCOMPLETE` is `incomplete`; a null root is `None`. */
  datatype AiScene = AiScene(
    meshes: seq<AiMesh>, materials: seq<AiMaterial>, root: Option<AiNode>, incomplete: bool)

  /** GetTextureCount / GetTexture: the references of one slot, none when it is absent. */
  function TextureRefs(mat: AiMaterial, slot: AiTextureType): seq<string> {
    if slot in mat.slots then mat.slots[slot] else []
  }

  /** What the importer guarantees of an imported scene. */
  predicate ArraysMatch(m: AiMesh) {
    && (m.normals.Some? ==> |m.normals.value| == |m.vertices|)
    && (m.texCoords.Some? ==> |m.texCoords.value| == |m.vertices|)
  }

  predicate ValidMaterial(mat: AiMaterial) {
    forall slot | slot in mat.slots :: forall i :: 0 <= i < |mat.slots[slot]| ==> |mat.slots[slot][i]| < AI_MAXLEN
  }

  predicate ValidNode(node: AiNode, meshCount: nat) {
    && (forall i :: 0 <= i < |node.meshes| ==> node.meshes[i] < meshCount)
    && (forall i :: 0 <= i < |node.children| ==> ValidNode(node.children[i], meshCount))
  }

  predicate ValidChildren(children: seq<AiNode>, meshCount: nat) {
    forall i :: 0 <= i < |children| ==> ValidNode(children[i], meshCount)
  }

  predicate ValidScene(scene: AiScene) {
    && (forall i :: 0 <= i < |scene.meshes| ==>
          ArraysMatch(scene.meshes[i]) && scene.meshes[i].materialIndex < |scene.materials|)
    && (forall i :: 0 <= i < |scene.materials| ==> ValidMaterial(scene.materials[i]))
    && (scene.root.Some? ==> ValidNode(scene.root.value, |scene.meshes|))
  }

  // ---------------------------------------------------------------------------
  // Vertices and indices of one mesh

  /** The vertex processMesh builds for vertex i (texture coordinates come from set 0). */
  function VertexOf(m: AiMesh, i: nat): Vertex
    requires ArraysMatch(m) && i < |m.vertices|
  {
    Vertex(
      m.vertices[i],
      if m.normals.Some? then m.normals.value[i] else ZERO3,
      if m.texCoords.Some? then Vec2(m.texCoords.value[i].x, m.texCoords.value[i].y) else ZERO2)
  }

  /** The first n vertices processMesh pushes. */
  function Vertices(m: AiMesh, n: nat): (r: seq<Vertex>)
    requires ArraysMatch(m) && n <= |m.vertices|
    ensures |r| == n
  {
    if n == 0 then [] else Vertices(m, n - 1) + [VertexOf(m, n - 1)]
  }

  lemma {:induction false} VerticesAt(m: AiMesh, n: nat, i: nat)
    requires ArraysMatch(m) && i < n <= |m.vertices|
    ensures Vertices(m, n)[i] == VertexOf(m, i)
  {
    if i < n - 1 {
      VerticesAt(m, n - 1, i);
    }
  }

  /**
   * One vertex per imported vertex, with the imported position; the normal and the
   * texture coordinates are the imported ones when present and zero otherwise.
   */
  lemma VertexDefaults(m: AiMesh, i: nat)
    requires ArraysMatch(m) && i < |m.vertices|
    ensures var v := Vertices(m, |m.vertices|)[i];
      && v.position == m.vertices[i]
      && (m.normals.None? ==> v.normal == ZERO3)
      && (m.normals.Some? ==> v.normal == m.normals.value[i])
      && (m.texCoords.None? ==> v.texCoords == ZERO2)
      && (m.texCoords.Some? ==> v.texCoords == Vec2(m.texCoords.value[i].x, m.texCoords.value[i].y))
  {
    VerticesAt(m, |m.vertices|, i);
  }

  /** The indices of the first n faces, face after face. */
  function Flatten(faces: seq<seq<nat>>, n: nat): seq<nat>
    requires n <= |faces|
  {
    if n == 0 then [] else Flatten(faces, n - 1) + faces[n - 1]
  }

  lemma {:induction false} FlattenPrefix(faces: seq<seq<nat>>, k: nat, n: nat)
    requires k <= n <= |faces|
    ensures |Flatten(faces, k)| <= |Flatten(faces, n)|
    ensures Flatten(faces, n)[..|Flatten(faces, k)|] == Flatten(faces, k)
    decreases n
  {
    if k < n {
      FlattenPrefix(faces, k, n - 1);
      var p, q := Flatten(faces, n - 1), Flatten(faces, k);
      assert Flatten(faces, n) == p + faces[n - 1];
      assert (p + faces[n - 1])[..|q|] == p[..|q|];
    }
  }

  /**
   * Face k's indices appear, in order, right after the indices of the faces before
   * it: the index list is the concatenation of the faces in face order.
   */
  lemma FaceInPlace(faces: seq<seq<nat>>, k: nat)
    requires k < |faces|
    ensures var all, before := Flatten(faces, |faces|), |Flatten(faces, k)|;
      before + |faces[k]| <= |all| && all[before..before + |faces[k]|] == faces[k]
  {
    FlattenPrefix(faces, k + 1, |faces|);
    var q := Flatten(faces, k);
    assert Flatten(faces, k + 1) == q + faces[k];
    assert (q + faces[k])[|q|..|q| + |faces[k]|] == faces[k];
  }

  // ---------------------------------------------------------------------------
  // The texture cache

  /**
   * A texture reference as loadMaterialTextures treats it: the key it looks up in
   * the cache and the file name it then loads and stores.
   */
  datatype Ref = Ref(key: string, file: string)

  /** As written: the raw reference is looked up, the stripped name is loaded. */
  function AsWrittenRef(s: string): Ref {
    Ref(s, StripAsWritten(s))
  }

  /** As intended: the base name is both looked up and loaded. */
  function FixedRef(s: string): Ref {
    var name := BaseName(s);
    Ref(name, name)
  }

  function AsWrittenRefs(refs: seq<string>): (r: seq<Ref>)
    ensures |r| == |refs|
  {
    if |refs| == 0 then [] else [AsWrittenRef(refs[0])] + AsWrittenRefs(refs[1..])
  }

  function FixedRefs(refs: seq<string>): (r: seq<Ref>)
    ensures |r| == |refs|
  {
    if |refs| == 0 then [] else [FixedRef(refs[0])] + FixedRefs(refs[1..])
  }

  lemma {:induction false} AsWrittenRefsAt(refs: seq<string>, i: nat)
    requires i < |refs|
    ensures AsWrittenRefs(refs)[i] == AsWrittenRef(refs[i])
  {
    if i > 0 {
      AsWrittenRefsAt(refs[1..], i - 1);
    }
  }

  lemma {:induction false} FixedRefsAt(refs: seq<string>, i: nat)
    requires i < |refs|
    ensures FixedRefs(refs)[i] == FixedRef(refs[i])
  {
    if i > 0 {
      FixedRefsAt(refs[1..], i - 1);
    }
  }

  /** The texture cache and the GL state that loading changes. */
  datatype Loader = Loader(cache: seq<Texture>, gl: Snapshot)

  datatype Resolved = Resolved(loader: Loader, textures: seq<Texture>)

  /** The effect of one Texture::load on the context: a name, and the upload events. */
  function AfterLoad(g: Snapshot, image: Image): Snapshot {
    Snapshot(g.next + 1, g.live + {g.next}, g.trace + LoadEvents(g.next, image))
  }

  /** std::find_if over the cache: the first entry whose file is key, or the end. */
  function FindFile(cache: seq<Texture>, key: string): (k: nat)
    ensures k <= |cache|
    ensures k < |cache| ==> cache[k].file == key
    ensures forall j :: 0 <= j < k ==> cache[j].file != key
  {
    if |cache| == 0 then 0
    else if cache[0].file == key then 0
    else
      var k := FindFile(cache[1..], key);
      assert forall j :: 1 <= j < k + 1 ==> cache[j] == cache[1..][j - 1];
      k + 1
  }

  /** Searching a cache with one entry more finds what it found before, else the new entry. */
  lemma {:induction false} FindFileAppend(cache: seq<Texture>, t: Texture, key: string)
    ensures FindFile(cache + [t], key) ==
      if FindFile(cache, key) < |cache| then FindFile(cache, key)
      else if t.file == key then |cache| else |cache| + 1
  {
    if |cache| > 0 && cache[0].file != key {
      FindFileAppend(cache[1..], t, key);
      assert (cache + [t])[1..] == cache[1..] + [t];
    }
  }

  /** One reference: a hit appends the cached texture, a miss calls Texture::load. */
  function ResolveRef(l: Loader, r: Ref, directory: string, kind: TextureType, decode: Decoder): Resolved {
    var k := FindFile(l.cache, r.key);
    if k < |l.cache| then Resolved(l, [l.cache[k]])
    else
      var image := decode(directory + "/" + r.file);
      var gl := AfterLoad(l.gl, image);
      match LoadedTexture(l.gl.next, image, r.file, kind)
      case None => Resolved(Loader(l.cache, gl), [])
      case Some(t) => Resolved(Loader(l.cache + [t], gl), [t])
  }

  /**
   * A hit appends the cached texture and changes nothing else. A miss consumes a
   * GL name whatever the decoder says; a texture it loads goes to the end of both
   * the cache and the result, and a failed load is skipped, leaving both unchanged.
   */
  lemma ResolveRefCases(l: Loader, r: Ref, directory: string, kind: TextureType, decode: Decoder)
    ensures var res, k := ResolveRef(l, r, directory, kind, decode), FindFile(l.cache, r.key);
      && (k < |l.cache| ==> res.loader == l && res.textures == [l.cache[k]])
      && (k == |l.cache| ==>
            && res.loader.gl.next == l.gl.next + 1 && res.loader.gl.live == l.gl.live + {l.gl.next}
            && (decode(directory + "/" + r.file).DecodeFailed? ==> res.loader.cache == l.cache && res.textures == [])
            && (decode(directory + "/" + r.file).Decoded? ==>
                  && res.textures == [Texture(l.gl.next, kind, r.file)]
                  && res.loader.cache == l.cache + res.textures))
  {
  }

  /** The first n references of one slot, in order. */
  function ResolveRefs(l: Loader, refs: seq<Ref>, n: nat, directory: string, kind: TextureType, decode: Decoder): Resolved
    requires n <= |refs|
  {
    if n == 0 then Resolved(l, [])
    else
      var prev := ResolveRefs(l, refs, n - 1, directory, kind, decode);
      var last := ResolveRef(prev.loader, refs[n - 1], directory, kind, decode);
      Resolved(last.loader, prev.textures + last.textures)
  }

  lemma ResolveRefsStep(l: Loader, refs: seq<Ref>, n: nat, directory: string, kind: TextureType, decode: Decoder)
    requires 0 < n <= |refs|
    ensures var prev := ResolveRefs(l, refs, n - 1, directory, kind, decode);
      var last := ResolveRef(prev.loader, refs[n - 1], directory, kind, decode);
      ResolveRefs(l, refs, n, directory, kind, decode) == Resolved(last.loader, prev.textures + last.textures)
  {
  }

  /** `a` is a prefix of `b`. */
  predicate Extends(b: seq<Texture>, a: seq<Texture>) {
    |a| <= |b| && b[..|a|] == a
  }

  /**
   * What resolving keeps true: the cache only grows at its end, every returned
   * texture is in the final cache, and every entry added has the slot's type.
   */
  predicate Grown(l: Loader, res: Resolved, kind: TextureType) {
    && Extends(res.loader.cache, l.cache)
    && (forall t :: t in res.textures ==> t in res.loader.cache)
    && (forall i :: |l.cache| <= i < |res.loader.cache| ==> res.loader.cache[i].kind == kind)
  }

  lemma GrownStep(l: Loader, prev: Resolved, last: Resolved, r: Ref, directory: string, kind: TextureType, decode: Decoder)
    requires Grown(l, prev, kind)
    requires last == ResolveRef(prev.loader, r, directory, kind, decode)
    ensures Grown(l, Resolved(last.loader, prev.textures + last.textures), kind)
  {
    ResolveRefCases(prev.loader, r, directory, kind, decode);
    var c0, c1, c2 := l.cache, prev.loader.cache, last.loader.cache;
    assert Extends(c2, c1);
    assert c2[..|c0|] == c2[..|c1|][..|c0|];
    forall t | t in prev.textures + last.textures
      ensures t in c2
    {
      if t in prev.textures {
        var i :| 0 <= i < |c1| && c1[i] == t;
        assert c2[i] == t;
      }
    }
  }

  /** The cache is append-only and holds everything a slot's resolution returns. */
  lemma {:induction false} ResolveRefsGrow(l: Loader, refs: seq<Ref>, n: nat, directory: string, kind: TextureType, decode: Decoder)
    requires n <= |refs|
    ensures Grown(l, ResolveRefs(l, refs, n, directory, kind, decode), kind)
  {
    if n > 0 {
      ResolveRefsGrow(l, refs, n - 1, directory, kind, decode);
      ResolveRefsStep(l, refs, n, directory, kind, decode);
      var prev := ResolveRefs(l, refs, n - 1, directory, kind, decode);
      GrownStep(l, prev, ResolveRef(prev.loader, refs[n - 1], directory, kind, decode), refs[n - 1], directory, kind, decode);
    }
  }

  /** No cached file name holds a '/'. */
  predicate NoSlashKeys(cache: seq<Texture>) {
    forall i :: 0 <= i < |cache| ==> '/' !in cache[i].file
  }

  lemma StripHasNoSlash(s: string)
    requires |s| < AI_MAXLEN
    ensures '/' !in StripAsWritten(s)
  {
    if '/' !in s && s != [] {
      assert forall j :: 0 <= j < |s| - 1 ==> s[..|s| - 1][j] == s[j];
    }
  }

  /** The names loaded hold no '/'. */
  predicate FilesHaveNoSlash(refs: seq<Ref>) {
    forall i :: 0 <= i < |refs| ==> '/' !in refs[i].file
  }

  lemma {:induction false} SlashFreeCacheStays(l: Loader, refs: seq<Ref>, n: nat, directory: string, kind: TextureType, decode: Decoder)
    requires n <= |refs| && NoSlashKeys(l.cache) && FilesHaveNoSlash(refs)
    ensures NoSlashKeys(ResolveRefs(l, refs, n, directory, kind, decode).loader.cache)
  {
    if n > 0 {
      SlashFreeCacheStays(l, refs, n - 1, directory, kind, decode);
      ResolveRefsStep(l, refs, n, directory, kind, decode);
      var prev := ResolveRefs(l, refs, n - 1, directory, kind, decode);
      NoSlashStep(prev.loader, refs[n - 1], directory, kind, decode);
    }
  }

  lemma AsWrittenFilesHaveNoSlash(refs: seq<string>)
    requires forall i :: 0 <= i < |refs| ==> |refs[i]| < AI_MAXLEN
    ensures FilesHaveNoSlash(AsWrittenRefs(refs))
  {
    forall i | 0 <= i < |refs|
      ensures '/' !in AsWrittenRefs(refs)[i].file
    {
      AsWrittenRefsAt(refs, i);
      StripHasNoSlash(refs[i]);
    }
  }

  /** As written, every name the cache stores is a stripped reference, so none holds a '/'. */
  lemma AsWrittenKeysHaveNoSlash(l: Loader, refs: seq<string>, directory: string, kind: TextureType, decode: Decoder)
    requires NoSlashKeys(l.cache)
    requires forall i :: 0 <= i < |refs| ==> |refs[i]| < AI_MAXLEN
    ensures NoSlashKeys(ResolveRefs(l, AsWrittenRefs(refs), |refs|, directory, kind, decode).loader.cache)
  {
    AsWrittenFilesHaveNoSlash(refs);
    SlashFreeCacheStays(l, AsWrittenRefs(refs), |refs|, directory, kind, decode);
  }

  lemma NoSlashStep(l: Loader, r: Ref, directory: string, kind: TextureType, decode: Decoder)
    requires NoSlashKeys(l.cache) && '/' !in r.file
    ensures NoSlashKeys(ResolveRef(l, r, directory, kind, decode).loader.cache)
  {
    ResolveRefCases(l, r, directory, kind, decode);
  }

  /** Hence, as written, a reference that holds a '/' is never a cache hit. */
  lemma SlashReferenceNeverHits(cache: seq<Texture>, ref: string)
    requires NoSlashKeys(cache) && '/' in ref
    ensures FindFile(cache, ref) == |cache|
  {
  }

  /**
   * As written, a reference that is not yet cached is loaded, and cached, every time
   * it is met: the stored name is never the reference itself.
   */
  lemma RepeatedReferenceLoadsTwice(l: Loader, ref: string, directory: string, kind: TextureType, decode: Decoder)
    requires ref != [] && |ref| < AI_MAXLEN
    requires FindFile(l.cache, ref) == |l.cache|
    requires decode(directory + "/" + StripAsWritten(ref)).Decoded?
    ensures var res := ResolveRefs(l, AsWrittenRefs([ref, ref]), 2, directory, kind, decode);
      && |res.loader.cache| == |l.cache| + 2
      && res.loader.cache[|l.cache|].file == res.loader.cache[|l.cache| + 1].file
      && res.loader.gl.next == l.gl.next + 2
  {
    var refs := AsWrittenRefs([ref, ref]);
    ResolveRefsStep(l, refs, 1, directory, kind, decode);
    ResolveRefsStep(l, refs, 2, directory, kind, decode);
    var first := ResolveRef(l, refs[0], directory, kind, decode);
    ResolveRefCases(l, refs[0], directory, kind, decode);
    var c1 := first.loader.cache;
    StripShortens(ref);
    var t := Texture(l.gl.next, kind, StripAsWritten(ref));
    assert c1 == l.cache + [t];
    FindFileAppend(l.cache, t, ref);
    ResolveRefCases(first.loader, refs[1], directory, kind, decode);
  }

  /** The reference "diffuse.png" is stored, and loaded, as "diffuse.pn". */
  lemma StripDropsLastCharacter()
    ensures StripAsWritten("diffuse.png") == "diffuse.pn"
  {
    var s := "diffuse.png";
    assert forall i :: 0 <= i < |s| ==> s[i] != '/';
  }

  /** No two cached textures share a file name. */
  predicate UniqueFiles(cache: seq<Texture>) {
    forall i, j :: 0 <= i < j < |cache| ==> cache[i].file != cache[j].file
  }

  /** References whose lookup key is the name they load, as in FixedRef. */
  predicate KeyedByFile(refs: seq<Ref>) {
    forall i :: 0 <= i < |refs| ==> refs[i].key == refs[i].file
  }

  lemma UniqueStep(l: Loader, r: Ref, directory: string, kind: TextureType, decode: Decoder)
    requires UniqueFiles(l.cache) && r.key == r.file
    ensures UniqueFiles(ResolveRef(l, r, directory, kind, decode).loader.cache)
  {
    ResolveRefCases(l, r, directory, kind, decode);
  }

  /** When the key looked up is the name stored, the cache never holds a file twice. */
  lemma {:induction false} KeyedCacheStaysUnique(l: Loader, refs: seq<Ref>, n: nat, directory: string, kind: TextureType, decode: Decoder)
    requires n <= |refs| && KeyedByFile(refs) && UniqueFiles(l.cache)
    ensures UniqueFiles(ResolveRefs(l, refs, n, directory, kind, decode).loader.cache)
  {
    if n > 0 {
      KeyedCacheStaysUnique(l, refs, n - 1, directory, kind, decode);
      ResolveRefsStep(l, refs, n, directory, kind, decode);
      var prev := ResolveRefs(l, refs, n - 1, directory, kind, decode);
      UniqueStep(prev.loader, refs[n - 1], directory, kind, decode);
    }
  }

  lemma FixedRefsKeyedByFile(refs: seq<string>)
    ensures KeyedByFile(FixedRefs(refs))
  {
    forall i | 0 <= i < |refs|
      ensures FixedRefs(refs)[i].key == FixedRefs(refs)[i].file
    {
      FixedRefsAt(refs, i);
    }
  }

  /**
   * With the corrected lookup, a file met a second time after a successful load is
   * a cache hit: it is uploaded once and both occurrences get the same texture.
   */
  lemma FixedRepeatedReferenceLoadsOnce(l: Loader, ref: string, directory: string, kind: TextureType, decode: Decoder)
    requires FindFile(l.cache, BaseName(ref)) == |l.cache|
    requires decode(directory + "/" + BaseName(ref)).Decoded?
    ensures var res := ResolveRefs(l, FixedRefs([ref, ref]), 2, directory, kind, decode);
      && |res.loader.cache| == |l.cache| + 1
      && res.loader.gl.next == l.gl.next + 1
      && |res.textures| == 2 && res.textures[0] == res.textures[1]
  {
    var refs := FixedRefs([ref, ref]);
    ResolveRefsStep(l, refs, 1, directory, kind, decode);
    ResolveRefsStep(l, refs, 2, directory, kind, decode);
    var first := ResolveRef(l, refs[0], directory, kind, decode);
    ResolveRefCases(l, refs[0], directory, kind, decode);
    var c1 := first.loader.cache;
    var t := Texture(l.gl.next, kind, BaseName(ref));
    assert c1 == l.cache + [t];
    FindFileAppend(l.cache, t, BaseName(ref));
    ResolveRefCases(first.loader, refs[1], directory, kind, decode);
  }

  /** The four slots of processMesh, in order, each with the type its textures get. */
  function MaterialTextures(l: Loader, mat: AiMaterial, directory: string, decode: Decoder): Resolved {
    ResolveSlots(l, FixedRefs(TextureRefs(mat, AiDiffuse)), FixedRefs(TextureRefs(mat, AiSpecular)),
      FixedRefs(TextureRefs(mat, AiHeight)), FixedRefs(TextureRefs(mat, AiAmbient)), directory, decode)
  }

  /** The four slots' references resolved one slot after the other, the results concatenated. */
  function ResolveSlots(l: Loader, diffuse: seq<Ref>, specular: seq<Ref>, normal: seq<Ref>, height: seq<Ref>,
                        directory: string, decode: Decoder): Resolved {
    var d := ResolveRefs(l, diffuse, |diffuse|, directory, Diffuse, decode);
    var s := ResolveRefs(d.loader, specular, |specular|, directory, Specular, decode);
    var n := ResolveRefs(s.loader, normal, |normal|, directory, Normal, decode);
    var h := ResolveRefs(n.loader, height, |height|, directory, Height, decode);
    Resolved(h.loader, d.textures + s.textures + n.textures + h.textures)
  }

  /** The position of a texture type in processMesh's slot order. */
  function KindOrder(kind: TextureType): nat {
    match kind
    case Diffuse => 0
    case Specular => 1
    case Normal => 2
    case Height => 3
  }

  /** The entries of a cache from index `from` on have types in slot order. */
  predicate OrderedFrom(cache: seq<Texture>, from: nat) {
    forall i, j :: from <= i < j < |cache| ==> KindOrder(cache[i].kind) <= KindOrder(cache[j].kind)
  }

  lemma OrderedAppend(c0: seq<Texture>, c1: seq<Texture>, c2: seq<Texture>, kind: TextureType)
    requires Extends(c1, c0) && OrderedFrom(c1, |c0|)
    requires forall i :: |c0| <= i < |c1| ==> KindOrder(c1[i].kind) <= KindOrder(kind)
    requires Extends(c2, c1) && forall i :: |c1| <= i < |c2| ==> c2[i].kind == kind
    ensures Extends(c2, c0) && OrderedFrom(c2, |c0|)
    ensures forall i :: |c0| <= i < |c2| ==> KindOrder(c2[i].kind) <= KindOrder(kind)
  {
    assert forall i :: 0 <= i < |c1| ==> c2[i] == c1[i];
    assert c2[..|c0|] == c1[..|c0|];
  }

  lemma ExtendsTrans(a: seq<Texture>, b: seq<Texture>, c: seq<Texture>)
    requires Extends(b, a) && Extends(c, b)
    ensures Extends(c, a)
  {
    assert c[..|a|] == c[..|b|][..|a|];
  }

  /**
   * The textures a material adds to the cache are ordered diffuse, specular, then
   * the HEIGHT slot's (typed Normal), then the AMBIENT slot's (typed Height); and
   * every texture the material yields is cached.
   */
  lemma MaterialTexturesOrdered(l: Loader, mat: AiMaterial, directory: string, decode: Decoder)
    ensures var res := MaterialTextures(l, mat, directory, decode);
      && Extends(res.loader.cache, l.cache)
      && OrderedFrom(res.loader.cache, |l.cache|)
      && forall t :: t in res.textures ==> t in res.loader.cache
  {
    SlotsOrdered(l, FixedRefs(TextureRefs(mat, AiDiffuse)), FixedRefs(TextureRefs(mat, AiSpecular)),
      FixedRefs(TextureRefs(mat, AiHeight)), FixedRefs(TextureRefs(mat, AiAmbient)), directory, decode);
  }

  lemma SlotsOrdered(l: Loader, diffuse: seq<Ref>, specular: seq<Ref>, normal: seq<Ref>, height: seq<Ref>,
                     directory: string, decode: Decoder)
    ensures var res := ResolveSlots(l, diffuse, specular, normal, height, directory, decode);
      && Extends(res.loader.cache, l.cache)
      && OrderedFrom(res.loader.cache, |l.cache|)
      && forall t :: t in res.textures ==> t in res.loader.cache
  {
    var d := ResolveRefs(l, diffuse, |diffuse|, directory, Diffuse, decode);
    var s := ResolveRefs(d.loader, specular, |specular|, directory, Specular, decode);
    var n := ResolveRefs(s.loader, normal, |normal|, directory, Normal, decode);
    var h := ResolveRefs(n.loader, height, |height|, directory, Height, decode);
    ResolveRefsGrow(l, diffuse, |diffuse|, directory, Diffuse, decode);
    ResolveRefsGrow(d.loader, specular, |specular|, directory, Specular, decode);
    ResolveRefsGrow(s.loader, normal, |normal|, directory, Normal, decode);
    ResolveRefsGrow(n.loader, height, |height|, directory, Height, decode);
    var c0, c1, c2, c3, c4 := l.cache, d.loader.cache, s.loader.cache, n.loader.cache, h.loader.cache;
    OrderedAppend(c0, c0, c1, Diffuse);
    OrderedAppend(c0, c1, c2, Specular);
    OrderedAppend(c0, c2, c3, Normal);
    OrderedAppend(c0, c3, c4, Height);
    ExtendsTrans(c2, c3, c4);
    ExtendsTrans(c1, c2, c4);
    CachedStays(c1, c4, d.textures);
    CachedStays(c2, c4, s.textures);
    CachedStays(c3, c4, n.textures);
    CachedIn(d.textures, s.textures, n.textures, h.textures, c4);
  }

  lemma CachedIn(a: seq<Texture>, b: seq<Texture>, c: seq<Texture>, d: seq<Texture>, cache: seq<Texture>)
    requires forall t :: t in a ==> t in cache
    requires forall t :: t in b ==> t in cache
    requires forall t :: t in c ==> t in cache
    requires forall t :: t in d ==> t in cache
    ensures forall t :: t in a + b + c + d ==> t in cache
  {
  }

  lemma CachedStays(a: seq<Texture>, b: seq<Texture>, ts: seq<Texture>)
    requires Extends(b, a) && forall t :: t in ts ==> t in a
    ensures forall t :: t in ts ==> t in b
  {
    forall t | t in ts
      ensures t in b
    {
      var i :| 0 <= i < |a| && a[i] == t;
      assert b[i] == t;
    }
  }

  // ---------------------------------------------------------------------------
  // Building meshes and walking the tree

  datatype Built = Built(loader: Loader, meshes: seq<MeshData>)

  /**
   * The texture step of processMesh, from the loader and a material to the mesh's
   * textures. The walk is stated for any such step; the model's is Materials.
   */
  type MaterialStep = (Loader, AiMaterial) -> Resolved

  function Materials(directory: string, decode: Decoder): MaterialStep {
    (l: Loader, mat: AiMaterial) => MaterialTextures(l, mat, directory, decode)
  }

  /** The effect of one Mesh::create on the context: three names and the upload events. */
  function AfterCreate(g: Snapshot, d: MeshData): Snapshot {
    Snapshot(g.next + 3, g.live + {g.next, g.next + 1, g.next + 2}, g.trace + CreateEvents(d))
  }

  /** processMesh for scene mesh `index`: vertices, indices, the material's textures, then Mesh::create. */
  function BuildMesh(l: Loader, scene: AiScene, index: nat, resolve: MaterialStep): Built
    requires ValidScene(scene) && index < |scene.meshes|
  {
    var m := scene.meshes[index];
    var r := resolve(l, scene.materials[m.materialIndex]);
    var g := r.loader.gl;
    var d := MeshData(Vertices(m, |m.vertices|), Flatten(m.faces, |m.faces|), r.textures, g.next, g.next + 1, g.next + 2);
    Built(Loader(r.loader.cache, AfterCreate(g, d)), [d])
  }

  predicate IndicesValid(scene: AiScene, ids: seq<nat>) {
    forall i :: 0 <= i < |ids| ==> ids[i] < |scene.meshes|
  }

  /** The first loop of processNode: the node's first n meshes, in index order. */
  function BuildOwn(l: Loader, scene: AiScene, ids: seq<nat>, n: nat, resolve: MaterialStep): Built
    requires ValidScene(scene) && n <= |ids| && IndicesValid(scene, ids)
  {
    if n == 0 then Built(l, [])
    else
      var prev := BuildOwn(l, scene, ids, n - 1, resolve);
      var b := BuildMesh(prev.loader, scene, ids[n - 1], resolve);
      Built(b.loader, prev.meshes + b.meshes)
  }

  /** processNode: the node's own meshes, then each child's subtree in child order. */
  function BuildNode(l: Loader, scene: AiScene, node: AiNode, resolve: MaterialStep): Built
    requires ValidScene(scene) && ValidNode(node, |scene.meshes|)
    decreases node, 1, 0
  {
    var own := BuildOwn(l, scene, node.meshes, |node.meshes|, resolve);
    var kids := BuildChildren(own.loader, scene, node.children, |node.children|, resolve);
    Built(kids.loader, own.meshes + kids.meshes)
  }

  /** The second loop of processNode: the subtrees of the first n children. */
  function BuildChildren(l: Loader, scene: AiScene, children: seq<AiNode>, n: nat, resolve: MaterialStep): Built
    requires ValidScene(scene) && n <= |children|
    requires ValidChildren(children, |scene.meshes|)
    decreases children, 0, n
  {
    if n == 0 then Built(l, [])
    else
      var prev := BuildChildren(l, scene, children, n - 1, resolve);
      var b := BuildNode(prev.loader, scene, children[n - 1], resolve);
      Built(b.loader, prev.meshes + b.meshes)
  }

  /** The scene-mesh indices of a subtree in pre-order: a node's own, then each child's subtree. */
  function PreOrder(node: AiNode): seq<nat>
    decreases node, 1, 0
  {
    node.meshes + PreOrderChildren(node.children, |node.children|)
  }

  function PreOrderChildren(children: seq<AiNode>, n: nat): seq<nat>
    requires n <= |children|
    decreases children, 0, n
  {
    if n == 0 then [] else PreOrderChildren(children, n - 1) + PreOrder(children[n - 1])
  }

  /** What of a built mesh comes from its scene mesh alone. */
  datatype Shape = Shape(vertices: seq<Vertex>, indices: seq<nat>)

  function SceneShape(scene: AiScene, index: nat): Shape {
    if index < |scene.meshes| && ArraysMatch(scene.meshes[index]) then
      var m := scene.meshes[index];
      Shape(Vertices(m, |m.vertices|), Flatten(m.faces, |m.faces|))
    else Shape([], [])
  }

  function SceneShapes(scene: AiScene, ids: seq<nat>): seq<Shape> {
    if |ids| == 0 then [] else [SceneShape(scene, ids[0])] + SceneShapes(scene, ids[1..])
  }

  function DataShapes(ds: seq<MeshData>): seq<Shape> {
    if |ds| == 0 then [] else [Shape(ds[0].vertices, ds[0].indices)] + DataShapes(ds[1..])
  }

  lemma {:induction false} SceneShapesDistribute(scene: AiScene, a: seq<nat>, b: seq<nat>)
    ensures SceneShapes(scene, a + b) == SceneShapes(scene, a) + SceneShapes(scene, b)
    decreases |a|
  {
    if |a| == 0 {
      assert a + b == b;
    } else {
      assert (a + b)[0] == a[0];
      assert (a + b)[1..] == a[1..] + b;
      SceneShapesDistribute(scene, a[1..], b);
    }
  }

  lemma {:induction false} DataShapesDistribute(a: seq<MeshData>, b: seq<MeshData>)
    ensures DataShapes(a + b) == DataShapes(a) + DataShapes(b)
    decreases |a|
  {
    if |a| == 0 {
      assert a + b == b;
    } else {
      assert (a + b)[0] == a[0];
      assert (a + b)[1..] == a[1..] + b;
      DataShapesDistribute(a[1..], b);
    }
  }

  lemma DataShapesGlue(a: seq<MeshData>, b: seq<MeshData>, x: seq<Shape>, y: seq<Shape>)
    requires DataShapes(a) == x && DataShapes(b) == y
    ensures DataShapes(a + b) == x + y
  {
    DataShapesDistribute(a, b);
  }

  lemma SceneShapesGlue(scene: AiScene, a: seq<nat>, b: seq<nat>, x: seq<Shape>, y: seq<Shape>)
    requires SceneShapes(scene, a) == x && SceneShapes(scene, b) == y
    ensures SceneShapes(scene, a + b) == x + y
  {
    SceneShapesDistribute(scene, a, b);
  }

  lemma BuildMeshShape(l: Loader, scene: AiScene, index: nat, resolve: MaterialStep)
    requires ValidScene(scene) && index < |scene.meshes|
    ensures DataShapes(BuildMesh(l, scene, index, resolve).meshes) == SceneShapes(scene, [index])
  {
    var d := BuildMesh(l, scene, index, resolve).meshes;
    assert DataShapes(d) == [Shape(d[0].vertices, d[0].indices)];
    assert SceneShapes(scene, [index]) == [SceneShape(scene, index)];
  }

  lemma {:induction false} BuildOwnShapes(l: Loader, scene: AiScene, ids: seq<nat>, n: nat, resolve: MaterialStep)
    requires ValidScene(scene) && n <= |ids| && IndicesValid(scene, ids)
    ensures DataShapes(BuildOwn(l, scene, ids, n, resolve).meshes) == SceneShapes(scene, ids[..n])
  {
    if n == 0 {
      assert ids[..0] == [];
    } else {
      BuildOwnShapes(l, scene, ids, n - 1, resolve);
      BuildOwnShapesStep(l, scene, ids, n, resolve);
    }
  }

  lemma BuildOwnShapesStep(l: Loader, scene: AiScene, ids: seq<nat>, n: nat, resolve: MaterialStep)
    requires ValidScene(scene) && 0 < n <= |ids| && IndicesValid(scene, ids)
    requires DataShapes(BuildOwn(l, scene, ids, n - 1, resolve).meshes) == SceneShapes(scene, ids[..n - 1])
    ensures DataShapes(BuildOwn(l, scene, ids, n, resolve).meshes) == SceneShapes(scene, ids[..n])
  {
    var prev := BuildOwn(l, scene, ids, n - 1, resolve);
    var b := BuildMesh(prev.loader, scene, ids[n - 1], resolve);
    BuildMeshShape(prev.loader, scene, ids[n - 1], resolve);
    DataShapesGlue(prev.meshes, b.meshes, SceneShapes(scene, ids[..n - 1]), SceneShapes(scene, [ids[n - 1]]));
    assert ids[..n] == ids[..n - 1] + [ids[n - 1]];
    SceneShapesDistribute(scene, ids[..n - 1], [ids[n - 1]]);
  }

  /**
   * processNode appends exactly the pre-order flattening of the subtree: its k-th
   * mesh has the vertices and indices of scene mesh PreOrder(node)[k].
   */
  lemma {:induction false} BuildNodeFollowsPreOrder(l: Loader, scene: AiScene, node: AiNode, resolve: MaterialStep)
    requires ValidScene(scene) && ValidNode(node, |scene.meshes|)
    ensures DataShapes(BuildNode(l, scene, node, resolve).meshes) == SceneShapes(scene, PreOrder(node))
    decreases node, 1, 0
  {
    var own := BuildOwn(l, scene, node.meshes, |node.meshes|, resolve);
    var kids := BuildChildren(own.loader, scene, node.children, |node.children|, resolve);
    BuildOwnShapes(l, scene, node.meshes, |node.meshes|, resolve);
    assert node.meshes[..|node.meshes|] == node.meshes;
    BuildChildrenFollowPreOrder(own.loader, scene, node.children, |node.children|, resolve);
    DataShapesGlue(own.meshes, kids.meshes, SceneShapes(scene, node.meshes),
      SceneShapes(scene, PreOrderChildren(node.children, |node.children|)));
    SceneShapesDistribute(scene, node.meshes, PreOrderChildren(node.children, |node.children|));
  }

  lemma {:induction false} BuildChildrenFollowPreOrder(l: Loader, scene: AiScene, children: seq<AiNode>, n: nat, resolve: MaterialStep)
    requires ValidScene(scene) && n <= |children|
    requires ValidChildren(children, |scene.meshes|)
    ensures DataShapes(BuildChildren(l, scene, children, n, resolve).meshes) ==
      SceneShapes(scene, PreOrderChildren(children, n))
    decreases children, 0, n
  {
    if n > 0 {
      BuildChildrenFollowPreOrder(l, scene, children, n - 1, resolve);
      var prev := BuildChildren(l, scene, children, n - 1, resolve);
      var b := BuildNode(prev.loader, scene, children[n - 1], resolve);
      BuildNodeFollowsPreOrder(prev.loader, scene, children[n - 1], resolve);
      DataShapesGlue(prev.meshes, b.meshes, SceneShapes(scene, PreOrderChildren(children, n - 1)),
        SceneShapes(scene, PreOrder(children[n - 1])));
      SceneShapesDistribute(scene, PreOrderChildren(children, n - 1), PreOrder(children[n - 1]));
    }
  }

  // ---------------------------------------------------------------------------
  // Drawing

  /** The events of each mesh's draw, in mesh order. */
  function MeshTraces(ds: seq<MeshData>, program: nat, locate: (nat, string) -> int): (r: seq<seq<Event>>)
    ensures |r| == |ds|
    decreases |ds|, 1
  {
    if |ds| == 0 then [] else MeshTracesNonEmpty(ds, program, locate)
  }

  /** MeshTraces of a non-empty list: the traces of all but the last mesh, then the last one's. */
  function MeshTracesNonEmpty(ds: seq<MeshData>, program: nat, locate: (nat, string) -> int): (r: seq<seq<Event>>)
    requires |ds| > 0
    ensures |r| == |ds|
    decreases |ds|, 0
  {
    MeshTraces(ds[..|ds| - 1], program, locate) + [DrawEvents(ds[|ds| - 1], program, locate)]
  }

  lemma {:induction false} MeshTracesAt(ds: seq<MeshData>, program: nat, locate: (nat, string) -> int, i: nat)
    requires i < |ds|
    ensures MeshTraces(ds, program, locate)[i] == DrawEvents(ds[i], program, locate)
  {
    assert MeshTraces(ds, program, locate) == MeshTracesNonEmpty(ds, program, locate);
    if i < |ds| - 1 {
      MeshTracesAt(ds[..|ds| - 1], program, locate, i);
    }
  }

  /** The first n parts, one after the other. */
  function Concat(parts: seq<seq<Event>>, n: nat): seq<Event>
    requires n <= |parts|
  {
    if n == 0 then [] else Concat(parts, n - 1) + parts[n - 1]
  }

  /** The index counts of the first n meshes, in order. */
  function IndexCounts(ds: seq<MeshData>, n: nat): (r: seq<nat>)
    requires n <= |ds|
    ensures |r| == n
  {
    if n == 0 then [] else IndexCounts(ds, n - 1) + [|ds[n - 1].indices|]
  }

  /** Parts that each issue one draw call, with the matching mesh's index count, issue those calls in order. */
  lemma {:induction false} ConcatDraws(parts: seq<seq<Event>>, ds: seq<MeshData>, n: nat)
    requires n <= |parts| && n <= |ds|
    requires forall i :: 0 <= i < n ==> Draws(parts[i]) == [|ds[i].indices|]
    ensures Draws(Concat(parts, n)) == IndexCounts(ds, n)
  {
    if n > 0 {
      ConcatDraws(parts, ds, n - 1);
      DrawsGlue(Concat(parts, n - 1), parts[n - 1], IndexCounts(ds, n - 1), [|ds[n - 1].indices|]);
    }
  }

  /** Drawing the first n meshes issues one draw call per mesh, in mesh order, with that mesh's index count. */
  lemma OneDrawPerMesh(ds: seq<MeshData>, program: nat, locate: (nat, string) -> int, n: nat)
    requires n <= |ds|
    ensures Draws(Concat(MeshTraces(ds, program, locate), n)) == IndexCounts(ds, n)
  {
    var traces := MeshTraces(ds, program, locate);
    forall i | 0 <= i < n
      ensures Draws(traces[i]) == [|ds[i].indices|]
    {
      MeshTracesAt(ds, program, locate, i);
      DrawOnce(ds[i], program, locate);
    }
    ConcatDraws(traces, ds, n);
  }

  lemma AppendAssociates<T>(a: seq<T>, b: seq<T>, c: seq<T>)
    ensures a + b + c == a + (b + c)
  {
  }

  // ---------------------------------------------------------------------------
  // The Model class

  /** The data of a list of meshes, in order. */
  function MeshesData(ms: seq<Mesh>): (r: seq<MeshData>)
    reads ms
    ensures |r| == |ms|
  {
    if |ms| == 0 then [] else MeshesData(ms[..|ms| - 1]) + [ms[|ms| - 1].Data()]
  }

  /** Meshes whose fields have not changed have the same data. */
  twostate lemma MeshesDataFrame(ms: seq<Mesh>)
    requires unchanged(ms)
    ensures MeshesData(ms) == old(MeshesData(ms))
  {
  }

  lemma MeshesDataAppend(ms: seq<Mesh>, m: Mesh)
    ensures MeshesData(ms + [m]) == MeshesData(ms) + [m.Data()]
  {
    assert (ms + [m])[..|ms|] == ms;
  }

  lemma {:induction false} MeshesDataAt(ms: seq<Mesh>, i: nat)
    requires i < |ms|
    ensures MeshesData(ms)[i] == ms[i].Data()
  {
    if i < |ms| - 1 {
      MeshesDataAt(ms[..|ms| - 1], i);
    }
  }

  /** processMesh's first loop. */
  method CollectVertices(m: AiMesh) returns (vertices: seq<Vertex>)
    requires ArraysMatch(m)
    ensures vertices == Vertices(m, |m.vertices|)
  {
    vertices := [];
    var idx := 0;
    while idx < |m.vertices|
      invariant idx <= |m.vertices| && vertices == Vertices(m, idx)
    {
      var normal := if m.normals.Some? then m.normals.value[idx] else ZERO3;
      var texCoords := if m.texCoords.Some? then Vec2(m.texCoords.value[idx].x, m.texCoords.value[idx].y) else ZERO2;
      vertices := vertices + [Vertex(m.vertices[idx], normal, texCoords)];
      idx := idx + 1;
    }
  }

  /** processMesh's second loop: every face's indices pushed in order. */
  method CollectIndices(faces: seq<seq<nat>>) returns (indices: seq<nat>)
    ensures indices == Flatten(faces, |faces|)
  {
    indices := [];
    var idx := 0;
    while idx < |faces|
      invariant idx <= |faces| && indices == Flatten(faces, idx)
    {
      var face := faces[idx];
      var j := 0;
      while j < |face|
        invariant j <= |face| && indices == Flatten(faces, idx) + face[..j]
      {
        assert face[..j + 1] == face[..j] + [face[j]];
        indices := indices + [face[j]];
        j := j + 1;
      }
      assert face[..|face|] == face;
      idx := idx + 1;
    }
  }

  class Model {
    var meshes: seq<Mesh>
    var directory: string
    var loadedTextures: seq<Texture>

    /** A default-constructed model: no meshes, no directory, an empty cache. */
    constructor ()
      ensures meshes == [] && directory == [] && loadedTextures == []
    {
      meshes, directory, loadedTextures := [], [], [];
    }

    /** std::find_if over the cache. */
    method FindLoaded(key: string) returns (k: nat)
      ensures k == FindFile(loadedTextures, key)
    {
      k := 0;
      while k < |loadedTextures| && loadedTextures[k].file != key
        invariant k <= |loadedTextures|
        invariant forall j :: 0 <= j < k ==> loadedTextures[j].file != key
      {
        k := k + 1;
      }
    }

    /** One pass of loadMaterialTextures' loop. */
    method LoadReference(gl: Context, decode: Decoder, ref: string, kind: TextureType) returns (found: seq<Texture>)
      requires gl.Valid()
      modifies this, gl
      ensures gl.Valid()
      ensures var r := ResolveRef(Loader(old(loadedTextures), old(gl.Snap())), FixedRef(ref), directory, kind, decode);
        found == r.textures && loadedTextures == r.loader.cache && gl.Snap() == r.loader.gl
      ensures meshes == old(meshes) && directory == old(directory)
    {
      ResolveRefCases(Loader(loadedTextures, gl.Snap()), FixedRef(ref), directory, kind, decode);
      var file := BaseName(ref);
      var k := FindLoaded(file);
      if k < |loadedTextures| {
        return [loadedTextures[k]];
      }
      var texture := LoadTexture(gl, decode, file, directory, kind);
      if texture.None? {
        return [];
      }
      loadedTextures := loadedTextures + [texture.value];
      found := [texture.value];
    }

    /** loadMaterialTextures: the references of one slot, in order, through the cache. */
    method LoadMaterialTextures(gl: Context, decode: Decoder, mat: AiMaterial, slot: AiTextureType, kind: TextureType)
      returns (textures: seq<Texture>)
      requires gl.Valid()
      modifies this, gl
      ensures gl.Valid()
      ensures var refs := FixedRefs(TextureRefs(mat, slot));
        var r := ResolveRefs(Loader(old(loadedTextures), old(gl.Snap())), refs, |refs|, directory, kind, decode);
        textures == r.textures && loadedTextures == r.loader.cache && gl.Snap() == r.loader.gl
      ensures meshes == old(meshes) && directory == old(directory)
    {
      var refs := TextureRefs(mat, slot);
      ghost var start := Loader(loadedTextures, gl.Snap());
      textures := [];
      var idx := 0;
      while idx < |refs|
        invariant idx <= |refs| && gl.Valid()
        invariant var r := ResolveRefs(start, FixedRefs(refs), idx, directory, kind, decode);
          textures == r.textures && loadedTextures == r.loader.cache && gl.Snap() == r.loader.gl
        invariant meshes == old(meshes) && directory == old(directory)
      {
        FixedRefsAt(refs, idx);
        ResolveRefsStep(start, FixedRefs(refs), idx + 1, directory, kind, decode);
        var found := LoadReference(gl, decode, refs[idx], kind);
        textures := textures + found;
        idx := idx + 1;
      }
    }

    /** processMesh's four loadMaterialTextures calls, in slot order, concatenated. */
    method LoadMaterial(gl: Context, decode: Decoder, material: AiMaterial) returns (textures: seq<Texture>)
      requires gl.Valid()
      modifies this, gl
      ensures gl.Valid()
      ensures var r := MaterialTextures(Loader(old(loadedTextures), old(gl.Snap())), material, directory, decode);
        textures == r.textures && loadedTextures == r.loader.cache && gl.Snap() == r.loader.gl
      ensures meshes == old(meshes) && directory == old(directory)
    {
      var diffuse := LoadMaterialTextures(gl, decode, material, AiDiffuse, Diffuse);
      var specular := LoadMaterialTextures(gl, decode, material, AiSpecular, Specular);
      var normal := LoadMaterialTextures(gl, decode, material, AiHeight, Normal);
      var height := LoadMaterialTextures(gl, decode, material, AiAmbient, Height);
      textures := diffuse + specular + normal + height;
    }

    /** processMesh for scene mesh `index`. */
    method ProcessMesh(gl: Context, decode: Decoder, scene: AiScene, index: nat) returns (mesh: Mesh)
      requires gl.Valid() && ValidScene(scene) && index < |scene.meshes|
      modifies this, gl
      ensures gl.Valid() && fresh(mesh)
      ensures var b := BuildMesh(Loader(old(loadedTextures), old(gl.Snap())), scene, index, Materials(directory, decode));
        [mesh.Data()] == b.meshes && loadedTextures == b.loader.cache && gl.Snap() == b.loader.gl
      ensures meshes == old(meshes) && directory == old(directory)
    {
      ghost var start := Loader(loadedTextures, gl.Snap());
      var m := scene.meshes[index];
      var vertices := CollectVertices(m);
      var indices := CollectIndices(m.faces);
      var material := scene.materials[m.materialIndex];
      var textures := LoadMaterial(gl, decode, material);
      ghost var r := MaterialTextures(start, material, directory, decode);
      assert r == Materials(directory, decode)(start, material);
      ghost var g := gl.Snap();
      mesh := Mesh.Create(gl, vertices, indices, textures);
      ghost var d := MeshData(vertices, indices, textures, g.next, g.next + 1, g.next + 2);
      assert mesh.Data() == d;
      assert gl.Snap() == AfterCreate(g, d);
      assert BuildMesh(start, scene, index, Materials(directory, decode)) == Built(Loader(r.loader.cache, AfterCreate(g, d)), [d]);
    }

    /** processNode: the node's meshes appended in index order, then each child's subtree. */
    method ProcessNode(gl: Context, decode: Decoder, scene: AiScene, node: AiNode)
      requires gl.Valid() && ValidScene(scene) && ValidNode(node, |scene.meshes|)
      modifies this, gl
      decreases node, 2
      ensures gl.Valid() && directory == old(directory)
      ensures var b := BuildNode(Loader(old(loadedTextures), old(gl.Snap())), scene, node, Materials(directory, decode));
        MeshesData(meshes) == old(MeshesData(meshes)) + b.meshes && loadedTextures == b.loader.cache && gl.Snap() == b.loader.gl
    {
      ghost var start := Loader(loadedTextures, gl.Snap());
      ghost var before := MeshesData(meshes);
      ghost var resolve := Materials(directory, decode);
      ProcessOwn(gl, decode, scene, node.meshes);
      ghost var own := BuildOwn(start, scene, node.meshes, |node.meshes|, resolve);
      ghost var middle := MeshesData(meshes);
      ProcessChildren(gl, decode, scene, node.children);
      ghost var kids := BuildChildren(own.loader, scene, node.children, |node.children|, resolve);
      AppendAssociates(before, own.meshes, kids.meshes);
    }

    /** The model's meshes are `before` and then b's, and its cache and the context are b's. */
    ghost predicate Reached(gl: Context, before: seq<MeshData>, b: Built)
      reads this, gl, meshes
    {
      MeshesData(meshes) == before + b.meshes && loadedTextures == b.loader.cache && gl.Snap() == b.loader.gl
    }

    /** The first loop of processNode: each of the node's meshes, in index order. */
    method ProcessOwn(gl: Context, decode: Decoder, scene: AiScene, ids: seq<nat>)
      requires gl.Valid() && ValidScene(scene) && IndicesValid(scene, ids)
      modifies this, gl
      ensures gl.Valid() && directory == old(directory)
      ensures var b := BuildOwn(Loader(old(loadedTextures), old(gl.Snap())), scene, ids, |ids|, Materials(directory, decode));
        MeshesData(meshes) == old(MeshesData(meshes)) + b.meshes && loadedTextures == b.loader.cache && gl.Snap() == b.loader.gl
    {
      ghost var start := Loader(loadedTextures, gl.Snap());
      ghost var before := MeshesData(meshes);
      assert before + [] == before;
      var idx := 0;
      while idx < |ids|
        invariant idx <= |ids| && gl.Valid() && directory == old(directory)
        invariant Reached(gl, before, BuildOwn(start, scene, ids, idx, Materials(directory, decode)))
      {
        ProcessOwnStep(gl, decode, scene, ids, idx, start, before);
        idx := idx + 1;
      }
    }

    /** One iteration of the first loop: processMesh on the idx-th mesh, appended. */
    method ProcessOwnStep(gl: Context, decode: Decoder, scene: AiScene, ids: seq<nat>, idx: nat,
                          ghost start: Loader, ghost before: seq<MeshData>)
      requires gl.Valid() && ValidScene(scene) && IndicesValid(scene, ids) && idx < |ids|
      requires Reached(gl, before, BuildOwn(start, scene, ids, idx, Materials(directory, decode)))
      modifies this, gl
      ensures gl.Valid() && directory == old(directory)
      ensures Reached(gl, before, BuildOwn(start, scene, ids, idx + 1, Materials(directory, decode)))
    {
      label Entry:
      ghost var prev := BuildOwn(start, scene, ids, idx, Materials(directory, decode));
      assert Loader(loadedTextures, gl.Snap()) == prev.loader;
      ghost var done := MeshesData(meshes);
      var mesh := ProcessMesh(gl, decode, scene, ids[idx]);
      ghost var step := BuildMesh(prev.loader, scene, ids[idx], Materials(directory, decode));
      assert [mesh.Data()] == step.meshes;
      MeshesDataFrame@Entry(meshes);
      MeshesDataAppend(meshes, mesh);
      AppendAssociates(before, prev.meshes, step.meshes);
      ghost var grown := MeshesData(meshes + [mesh]);
      assert grown == done + step.meshes;
      assert BuildOwn(start, scene, ids, idx + 1, Materials(directory, decode)) == Built(step.loader, prev.meshes + step.meshes);
      label Stored:
      meshes := meshes + [mesh];
      MeshesDataFrame@Stored(meshes);
    }

    /** The second loop of processNode: each child's subtree, in child order. */
    method ProcessChildren(gl: Context, decode: Decoder, scene: AiScene, children: seq<AiNode>)
      requires gl.Valid() && ValidScene(scene)
      requires ValidChildren(children, |scene.meshes|)
      modifies this, gl
      decreases children, 1
      ensures gl.Valid() && directory == old(directory)
      ensures Reached(gl, old(MeshesData(meshes)),
        BuildChildren(Loader(old(loadedTextures), old(gl.Snap())), scene, children, |children|, Materials(directory, decode)))
    {
      ghost var start := Loader(loadedTextures, gl.Snap());
      ghost var before := MeshesData(meshes);
      assert before + [] == before;
      var idx := 0;
      while idx < |children|
        invariant idx <= |children| && gl.Valid() && directory == old(directory)
        invariant Reached(gl, before, BuildChildren(start, scene, children, idx, Materials(directory, decode)))
      {
        ProcessChildStep(gl, decode, scene, children, idx, start, before);
        idx := idx + 1;
      }
    }

    /** One iteration of the second loop: processNode on the idx-th child. */
    method ProcessChildStep(gl: Context, decode: Decoder, scene: AiScene, children: seq<AiNode>, idx: nat,
                            ghost start: Loader, ghost before: seq<MeshData>)
      requires gl.Valid() && ValidScene(scene) && idx < |children|
      requires ValidChildren(children, |scene.meshes|)
      requires Reached(gl, before, BuildChildren(start, scene, children, idx, Materials(directory, decode)))
      modifies this, gl
      decreases children, 0
      ensures gl.Valid() && directory == old(directory)
      ensures Reached(gl, before, BuildChildren(start, scene, children, idx + 1, Materials(directory, decode)))
    {
      ghost var prev := BuildChildren(start, scene, children, idx, Materials(directory, decode));
      ProcessNode(gl, decode, scene, children[idx]);
      ghost var step := BuildNode(prev.loader, scene, children[idx], Materials(directory, decode));
      AppendAssociates(before, prev.meshes, step.meshes);
    }

    /**
     * Model::create: no model when there is no scene, the scene is incomplete or it
     * has no root; otherwise a model whose directory is the path's directory and
     * whose meshes and cache are those the walk from the root builds.
     */
    static method Create(gl: Context, decode: Decoder, path: string, scene: Option<AiScene>) returns (model: Option<Model>)
      requires gl.Valid() && (scene.Some? ==> ValidScene(scene.value))
      modifies gl
      ensures gl.Valid()
      ensures model.None? <==> scene.None? || scene.value.incomplete || scene.value.root.None?
      ensures model.None? ==> gl.Snap() == old(gl.Snap())
      ensures model.Some? ==>
        && fresh(model.value)
        && model.value.directory == DirectoryOf(path)
        && var b := BuildNode(Loader([], old(gl.Snap())), scene.value, scene.value.root.value, Materials(DirectoryOf(path), decode));
          MeshesData(model.value.meshes) == b.meshes && model.value.loadedTextures == b.loader.cache && gl.Snap() == b.loader.gl
    {
      if scene.None? || scene.value.incomplete || scene.value.root.None? {
        return None;
      }
      var m := new Model();
      m.directory := DirectoryOf(path);
      m.ProcessNode(gl, decode, scene.value, scene.value.root.value);
      model := Some(m);
    }

    /** Model::draw: every mesh drawn, in order. */
    method Draw(gl: Context, shader: Shader)
      modifies gl
      ensures gl.trace == old(gl.trace) + Concat(MeshTraces(MeshesData(meshes), shader.id, gl.locate), |meshes|)
      ensures gl.next == old(gl.next) && gl.live == old(gl.live)
    {
      ghost var traces := MeshTraces(MeshesData(meshes), shader.id, gl.locate);
      assert gl.trace + [] == gl.trace;
      var idx := 0;
      while idx < |meshes|
        invariant idx <= |meshes|
        invariant gl.trace == old(gl.trace) + Concat(traces, idx)
        invariant gl.next == old(gl.next) && gl.live == old(gl.live)
      {
        AppendAssociates(old(gl.trace), Concat(traces, idx), traces[idx]);
        MeshesDataFrame(meshes);
        DrawMesh(gl, shader, idx, traces);
        idx := idx + 1;
      }
      MeshesDataFrame(meshes);
    }

    /** One iteration of Model::draw: the idx-th mesh's draw events. */
    method DrawMesh(gl: Context, shader: Shader, idx: nat, ghost traces: seq<seq<Event>>)
      requires idx < |meshes|
      requires traces == MeshTraces(MeshesData(meshes), shader.id, gl.locate)
      modifies gl
      ensures gl.trace == old(gl.trace) + traces[idx]
      ensures gl.next == old(gl.next) && gl.live == old(gl.live)
    {
      MeshesDataAt(meshes, idx);
      MeshTracesAt(MeshesData(meshes), shader.id, gl.locate, idx);
      meshes[idx].Draw(gl, shader);
    }
  }
}
