/**
 * A mesh model loaded from an OBJ file: the fixed vertex layout the model
 * pipeline reads, the assembly of flat position, texture-coordinate and normal
 * arrays into vertex records, and the per-mesh draw sequence. The OBJ reader,
 * the texture loading and every GPU call are outside the model: the reader's
 * output is a parameter, and buffers, bind groups and the render pass are
 * represented by what they hold or by their position in the model's lists. The
 * element type `F` of the arrays is generic, so values are only ever copied.
 */
module Model {
  import opened Wrappers

  // ---------------------------------------------------------------- layout

  datatype VertexFormat = Float32x2 | Float32x3

  /** Bytes one attribute of the format takes: 4 per `f32` component. */
  function FormatSize(format: VertexFormat): (r: nat)
    ensures r % 4 == 0
  {
    match format
    case Float32x2 => 2 * 4
    case Float32x3 => 3 * 4
  }

  datatype VertexAttribute = VertexAttribute(offset: nat, shaderLocation: nat, format: VertexFormat)

  datatype VertexStepMode = Vertex | Instance

  datatype VertexBufferLayout = VertexBufferLayout(arrayStride: nat, stepMode: VertexStepMode, attributes: seq<VertexAttribute>)

  /**
   * The layout of one vertex record: position, texture coordinates, normal,
   * at shader locations 0, 1 and 2, one record per vertex.
   */
  function Desc(): (r: VertexBufferLayout)
    ensures r.arrayStride == 32 && r.stepMode == Vertex && |r.attributes| == 3
    ensures r.attributes[0] == VertexAttribute(0, 0, Float32x3)
    ensures r.attributes[1] == VertexAttribute(12, 1, Float32x2)
    ensures r.attributes[2] == VertexAttribute(20, 2, Float32x3)
  {
    var f32Size := 4;
    VertexBufferLayout(
      (3 + 2 + 3) * f32Size,
      Vertex,
      [ VertexAttribute(0, 0, Float32x3),
        VertexAttribute(3 * f32Size, 1, Float32x2),
        VertexAttribute(5 * f32Size, 2, Float32x3) ])
  }

  /**
   * The attributes are packed in field order: each starts where the previous
   * one ends, the last ends at the stride, and their locations are 0, 1, 2.
   */
  lemma DescPacked()
    ensures Desc().attributes[0].offset == 0
    ensures forall i :: 0 < i < |Desc().attributes| ==>
      Desc().attributes[i].offset == Desc().attributes[i - 1].offset + FormatSize(Desc().attributes[i - 1].format)
    ensures Desc().attributes[2].offset + FormatSize(Desc().attributes[2].format) == Desc().arrayStride
    ensures forall i :: 0 <= i < |Desc().attributes| ==> Desc().attributes[i].shaderLocation == i
  {
    var attributes := Desc().attributes;
    assert attributes[1].offset == attributes[0].offset + FormatSize(attributes[0].format);
    assert attributes[2].offset == attributes[1].offset + FormatSize(attributes[1].format);
  }

  // ------------------------------------------------------------ OBJ input

  /** One mesh as the OBJ reader returns it, with a single index per vertex. */
  datatype ObjMesh<F> = ObjMesh(
    positions: seq<F>,
    texcoords: seq<F>,
    normals: seq<F>,
    indices: seq<nat>,
    materialId: Option<nat>)

  datatype ObjModel<F> = ObjModel(name: string, mesh: ObjMesh<F>)

  datatype ObjMaterial = ObjMaterial(name: string, diffuseTexture: string)

  // -------------------------------------------------------------- records

  datatype ModelVertex<F> = ModelVertex(position: (F, F, F), texCoords: (F, F), normal: (F, F, F))

  /** A material: its name and the texture file its bind group samples. */
  datatype Material = Material(name: string, diffuseTexture: string)

  /**
   * A mesh: the contents of its vertex and index buffers, the element count
   * drawn and the position of its material in the model's list.
   */
  datatype Mesh<F> = Mesh(name: string, vertices: seq<ModelVertex<F>>, indices: seq<nat>, numElements: nat, material: nat)

  datatype Model<F, T> = Model(meshes: seq<Mesh<F>>, materials: seq<Material>, transform: T)

  const Two32: nat := 0x1_0000_0000

  // ------------------------------------------------------------- assembly

  /** One vertex per complete position triple; a trailing partial triple is ignored. */
  function VertexCount<F>(mesh: ObjMesh<F>): nat {
    |mesh.positions| / 3
  }

  /** Whether the texture coordinates and normals cover every vertex, so no index is out of bounds. */
  predicate Assemblable<F>(mesh: ObjMesh<F>) {
    |mesh.texcoords| >= 2 * VertexCount(mesh) && |mesh.normals| >= 3 * VertexCount(mesh)
  }

  /** Vertex `i`: position triple `i`, texture-coordinate pair `i`, normal triple `i`. */
  function VertexAt<F>(mesh: ObjMesh<F>, i: nat): ModelVertex<F>
    requires Assemblable(mesh) && i < VertexCount(mesh)
  {
    ModelVertex(
      (mesh.positions[i * 3], mesh.positions[i * 3 + 1], mesh.positions[i * 3 + 2]),
      (mesh.texcoords[i * 2], mesh.texcoords[i * 2 + 1]),
      (mesh.normals[i * 3], mesh.normals[i * 3 + 1], mesh.normals[i * 3 + 2]))
  }

  /**
   * The vertex loop of `load` for one mesh: None where an index into the
   * texture coordinates or the normals is out of bounds (the source panics).
   */
  method AssembleVertices<F>(mesh: ObjMesh<F>) returns (r: Option<seq<ModelVertex<F>>>)
    ensures r.None? <==> !Assemblable(mesh)
    ensures r.Some? ==> |r.value| == VertexCount(mesh)
    ensures r.Some? ==> forall i :: 0 <= i < |r.value| ==> r.value[i] == VertexAt(mesh, i)
  {
    var vertices: seq<ModelVertex<F>> := [];
    var i: nat := 0;
    while i < |mesh.positions| / 3
      invariant i <= VertexCount(mesh)
      invariant 2 * i <= |mesh.texcoords| && 3 * i <= |mesh.normals|
      invariant |vertices| == i
      invariant forall j :: 0 <= j < i ==> vertices[j] == ModelVertex(
        (mesh.positions[j * 3], mesh.positions[j * 3 + 1], mesh.positions[j * 3 + 2]),
        (mesh.texcoords[j * 2], mesh.texcoords[j * 2 + 1]),
        (mesh.normals[j * 3], mesh.normals[j * 3 + 1], mesh.normals[j * 3 + 2]))
    {
      if i * 2 + 1 >= |mesh.texcoords| || i * 3 + 2 >= |mesh.normals| {
        return None;
      }
      vertices := vertices + [ModelVertex(
        (mesh.positions[i * 3], mesh.positions[i * 3 + 1], mesh.positions[i * 3 + 2]),
        (mesh.texcoords[i * 2], mesh.texcoords[i * 2 + 1]),
        (mesh.normals[i * 3], mesh.normals[i * 3 + 1], mesh.normals[i * 3 + 2]))];
      i := i + 1;
    }
    r := Some(vertices);
  }

  /** The assembled vertices of a mesh, as a value. */
  function Vertices<F>(mesh: ObjMesh<F>): (r: seq<ModelVertex<F>>)
    requires Assemblable(mesh)
    ensures |r| == VertexCount(mesh)
    ensures forall i :: 0 <= i < |r| ==> r[i] == VertexAt(mesh, i)
  {
    seq(VertexCount(mesh), i requires 0 <= i < VertexCount(mesh) => VertexAt(mesh, i))
  }

  /** The position triples laid end to end again. */
  function FlatPositions<F>(vertices: seq<ModelVertex<F>>): seq<F> {
    if |vertices| == 0 then []
    else
      var v := vertices[|vertices| - 1];
      FlatPositions(vertices[..|vertices| - 1]) + [v.position.0, v.position.1, v.position.2]
  }

  /** The texture-coordinate pairs laid end to end again. */
  function FlatTexCoords<F>(vertices: seq<ModelVertex<F>>): seq<F> {
    if |vertices| == 0 then []
    else
      var v := vertices[|vertices| - 1];
      FlatTexCoords(vertices[..|vertices| - 1]) + [v.texCoords.0, v.texCoords.1]
  }

  /** The normal triples laid end to end again. */
  function FlatNormals<F>(vertices: seq<ModelVertex<F>>): seq<F> {
    if |vertices| == 0 then []
    else
      var v := vertices[|vertices| - 1];
      FlatNormals(vertices[..|vertices| - 1]) + [v.normal.0, v.normal.1, v.normal.2]
  }

  /** Flattening the first `n` vertices gives back the first `3n` positions. */
  lemma {:induction false} FlattenPositionsPrefix<F>(mesh: ObjMesh<F>, n: nat)
    requires Assemblable(mesh) && n <= VertexCount(mesh)
    ensures FlatPositions(Vertices(mesh)[..n]) == mesh.positions[..3 * n]
  {
    if n > 0 {
      var m := n - 1;
      assert Vertices(mesh)[..n][..m] == Vertices(mesh)[..m];
      FlattenPositionsPrefix(mesh, m);
      var p := mesh.positions;
      assert p[..3 * n] == p[..3 * m] + [p[3 * m], p[3 * m + 1], p[3 * m + 2]];
    }
  }

  /** Flattening the first `n` vertices gives back the first `2n` texture coordinates. */
  lemma {:induction false} FlattenTexCoordsPrefix<F>(mesh: ObjMesh<F>, n: nat)
    requires Assemblable(mesh) && n <= VertexCount(mesh)
    ensures FlatTexCoords(Vertices(mesh)[..n]) == mesh.texcoords[..2 * n]
  {
    if n > 0 {
      var m := n - 1;
      assert Vertices(mesh)[..n][..m] == Vertices(mesh)[..m];
      FlattenTexCoordsPrefix(mesh, m);
      var t := mesh.texcoords;
      assert t[..2 * n] == t[..2 * m] + [t[2 * m], t[2 * m + 1]];
    }
  }

  /** Flattening the first `n` vertices gives back the first `3n` normals. */
  lemma {:induction false} FlattenNormalsPrefix<F>(mesh: ObjMesh<F>, n: nat)
    requires Assemblable(mesh) && n <= VertexCount(mesh)
    ensures FlatNormals(Vertices(mesh)[..n]) == mesh.normals[..3 * n]
  {
    if n > 0 {
      var m := n - 1;
      assert Vertices(mesh)[..n][..m] == Vertices(mesh)[..m];
      FlattenNormalsPrefix(mesh, m);
      var q := mesh.normals;
      assert q[..3 * n] == q[..3 * m] + [q[3 * m], q[3 * m + 1], q[3 * m + 2]];
    }
  }

  /**
   * Assembly loses nothing it reads: the whole vertex buffer flattens back to
   * the arrays it was read from, less a trailing partial position triple.
   */
  lemma FlattenVertices<F>(mesh: ObjMesh<F>)
    requires Assemblable(mesh)
    ensures FlatPositions(Vertices(mesh)) == mesh.positions[..3 * VertexCount(mesh)]
    ensures FlatTexCoords(Vertices(mesh)) == mesh.texcoords[..2 * VertexCount(mesh)]
    ensures FlatNormals(Vertices(mesh)) == mesh.normals[..3 * VertexCount(mesh)]
  {
    FlattenPositionsPrefix(mesh, VertexCount(mesh));
    FlattenTexCoordsPrefix(mesh, VertexCount(mesh));
    FlattenNormalsPrefix(mesh, VertexCount(mesh));
    assert Vertices(mesh)[..VertexCount(mesh)] == Vertices(mesh);
  }

  /** The material a mesh uses: its material id, or 0 when it has none. */
  function MaterialIndex<F>(mesh: ObjMesh<F>): (r: nat)
    ensures mesh.materialId.Some? ==> r == mesh.materialId.value
    ensures mesh.materialId.None? ==> r == 0
  {
    match mesh.materialId
    case Some(id) => id
    case None => 0
  }

  /**
   * The mesh record for one loaded model: its name, its assembled vertices, its
   * indices, the index count truncated to `u32`, and its material.
   */
  function MeshOf<F>(m: ObjModel<F>): (r: Mesh<F>)
    requires Assemblable(m.mesh)
    ensures r.name == m.name && r.indices == m.mesh.indices
    ensures |r.vertices| == VertexCount(m.mesh)
    ensures r.vertices == Vertices(m.mesh)
    ensures |m.mesh.indices| < Two32 ==> r.numElements == |m.mesh.indices|
    ensures r.material == MaterialIndex(m.mesh)
  {
    Mesh(m.name, Vertices(m.mesh), m.mesh.indices, |m.mesh.indices| % Two32, MaterialIndex(m.mesh))
  }

  /** Whether every mesh of the file can be assembled, so `load` does not panic in its vertex loop. */
  predicate AllAssemblable<F>(objModels: seq<ObjModel<F>>) {
    forall k :: 0 <= k < |objModels| ==> Assemblable(objModels[k].mesh)
  }

  /**
   * `load`, after the OBJ reader: one material per OBJ material and one mesh per
   * OBJ model, both in file order; None where the vertex loop panics.
   */
  method Load<F, T>(objModels: seq<ObjModel<F>>, objMaterials: seq<ObjMaterial>, transform: T) returns (r: Option<Model<F, T>>)
    ensures r.None? <==> !AllAssemblable(objModels)
    ensures r.Some? ==> r.value.transform == transform
    ensures r.Some? ==> |r.value.materials| == |objMaterials|
    ensures r.Some? ==> forall k :: 0 <= k < |objMaterials| ==>
      r.value.materials[k] == Material(objMaterials[k].name, objMaterials[k].diffuseTexture)
    ensures r.Some? ==> |r.value.meshes| == |objModels|
    ensures r.Some? ==> forall k :: 0 <= k < |objModels| ==> r.value.meshes[k] == MeshOf(objModels[k])
    ensures r.Some? ==> LoadedFrom(r.value, objModels, objMaterials)
  {
    var materials: seq<Material> := [];
    for k := 0 to |objMaterials|
      invariant |materials| == k
      invariant forall j :: 0 <= j < k ==> materials[j] == Material(objMaterials[j].name, objMaterials[j].diffuseTexture)
    {
      materials := materials + [Material(objMaterials[k].name, objMaterials[k].diffuseTexture)];
    }

    var meshes: seq<Mesh<F>> := [];
    for k := 0 to |objModels|
      invariant |meshes| == k
      invariant AllAssemblable(objModels[..k])
      invariant forall j :: 0 <= j < k ==> Assemblable(objModels[j].mesh) && meshes[j] == MeshOf(objModels[j])
    {
      var m := objModels[k];
      var vertices := AssembleVertices(m.mesh);
      if vertices.None? {
        return None;
      }
      assert vertices.value == Vertices(m.mesh);
      meshes := meshes + [Mesh(m.name, vertices.value, m.mesh.indices, |m.mesh.indices| % Two32, MaterialIndex(m.mesh))];
      assert objModels[..k + 1] == objModels[..k] + [m];
    }
    r := Some(Model(meshes, materials, transform));
  }

  // -------------------------------------------------------------- drawing

  /**
   * What one mesh's draw binds and issues: its vertex and index buffers (by
   * mesh position), its material's bind group (by material position), and an
   * indexed draw of elements 0 .. indexCount, base vertex 0, instance 0 only.
   */
  datatype Draw = Draw(mesh: nat, material: nat, indexCount: nat, instanceCount: nat)

  /** The draws `render` issues, or None when some mesh names a material the model does not have. */
  function Draws<F, T>(model: Model<F, T>): (r: Option<seq<Draw>>)
    ensures r.None? <==> exists k :: 0 <= k < |model.meshes| && model.meshes[k].material >= |model.materials|
    ensures r.Some? ==> |r.value| == |model.meshes|
    ensures r.Some? ==> forall k :: 0 <= k < |r.value| ==>
      r.value[k] == Draw(k, model.meshes[k].material, model.meshes[k].numElements, 1)
  {
    if exists k :: 0 <= k < |model.meshes| && model.meshes[k].material >= |model.materials| then None
    else Some(seq(|model.meshes|, k requires 0 <= k < |model.meshes| =>
      Draw(k, model.meshes[k].material, model.meshes[k].numElements, 1)))
  }

  /** `render`: one draw per mesh, in mesh order; None at the first mesh whose material lookup panics. */
  method Render<F, T>(model: Model<F, T>) returns (draws: Option<seq<Draw>>)
    ensures draws == Draws(model)
  {
    var issued: seq<Draw> := [];
    for k := 0 to |model.meshes|
      invariant |issued| == k
      invariant forall j :: 0 <= j < k ==> model.meshes[j].material < |model.materials|
      invariant forall j :: 0 <= j < k ==> issued[j] == Draw(j, model.meshes[j].material, model.meshes[j].numElements, 1)
    {
      var mesh := model.meshes[k];
      if mesh.material >= |model.materials| {
        assert model.meshes[k].material >= |model.materials|;
        return None;
      }
      issued := issued + [Draw(k, mesh.material, mesh.numElements, 1)];
    }
    assert Draws(model).Some?;
    assert Draws(model).value == issued;
    draws := Some(issued);
  }

  /**
   * A loaded model draws without a panic exactly when every mesh's material
   * index, with the default 0 for a mesh without one, names a loaded material.
   */
  lemma LoadedModelDraws<F, T>(objModels: seq<ObjModel<F>>, objMaterials: seq<ObjMaterial>, model: Model<F, T>)
    requires AllAssemblable(objModels)
    requires |model.materials| == |objMaterials| && |model.meshes| == |objModels|
    requires forall k :: 0 <= k < |objModels| ==> model.meshes[k] == MeshOf(objModels[k])
    ensures Draws(model).Some? <==> forall k :: 0 <= k < |objModels| ==> MaterialIndex(objModels[k].mesh) < |objMaterials|
  {
    if Draws(model).None? {
      var k :| 0 <= k < |model.meshes| && model.meshes[k].material >= |model.materials|;
      assert MaterialIndex(objModels[k].mesh) >= |objMaterials|;
    }
  }

  /** What `load` yields from the OBJ reader's output: the materials and meshes in file order. */
  ghost predicate LoadedFrom<F, T>(model: Model<F, T>, objModels: seq<ObjModel<F>>, objMaterials: seq<ObjMaterial>) {
    && AllAssemblable(objModels)
    && |model.materials| == |objMaterials|
    && |model.meshes| == |objModels|
    && forall k :: 0 <= k < |objModels| ==> model.meshes[k] == MeshOf(objModels[k])
  }

  /**
   * A mesh without a material id is drawn with the first material, so a model
   * loaded from a file without materials cannot draw it: `render` panics.
   */
  lemma NoMaterialIdDrawsFirstMaterial<F, T>(objModels: seq<ObjModel<F>>, objMaterials: seq<ObjMaterial>, model: Model<F, T>, k: nat)
    requires LoadedFrom(model, objModels, objMaterials)
    requires k < |objModels| && objModels[k].mesh.materialId.None?
    ensures |objMaterials| == 0 ==> Draws(model).None?
    ensures Draws(model).Some? ==> |objMaterials| >= 1 && Draws(model).value[k].material == 0
  {
    assert model.meshes[k].material == 0;
  }

  /** The vertex buffer of every loaded mesh flattens back to its OBJ arrays, less a trailing partial triple. */
  lemma LoadedMeshesFlatten<F, T>(objModels: seq<ObjModel<F>>, objMaterials: seq<ObjMaterial>, model: Model<F, T>, k: nat)
    requires LoadedFrom(model, objModels, objMaterials)
    requires k < |objModels|
    ensures var mesh := objModels[k].mesh;
      && FlatPositions(model.meshes[k].vertices) == mesh.positions[..3 * VertexCount(mesh)]
      && FlatTexCoords(model.meshes[k].vertices) == mesh.texcoords[..2 * VertexCount(mesh)]
      && FlatNormals(model.meshes[k].vertices) == mesh.normals[..3 * VertexCount(mesh)]
  {
    FlattenVertices(objModels[k].mesh);
  }
}
