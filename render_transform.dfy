/** `Transform` of src/engine/render/transform.rs: a position, an
    orientation and a per-axis scale, with the identity placement as its
    default. */
module RenderTransform {
  import opened Matrix
  import opened CorePrimitives

  datatype Transform = Transform(position: Vec3, rotation: Quat, scale: Vec3) {

    /** `Default`: at the origin, unrotated, unit scale. */
    static function Default(): (t: Transform)
      ensures t.position == Vec3(0.0, 0.0, 0.0)
      ensures t.rotation == Quat(0.0, 0.0, 0.0, 1.0)
      ensures t.scale == Vec3(1.0, 1.0, 1.0)
    {
      Transform(Vec3.ZERO, Quat.ZERO, Vec3.IDENTITY)
    }

    /** `Transform::new` keeps its arguments as they are: no cleaning and no
        normalization. */
    static function New(position: Vec3, rotation: Quat, scale: Vec3): (t: Transform)
      ensures t.position == position && t.rotation == rotation && t.scale == scale
    {
      Transform(position, rotation, scale)
    }

    /** The model matrix `Mat4::from_transform` builds from this placement. */
    function ModelMatrix(): (m: Mat)
      ensures IsSquare(m, 4)
      ensures m[3] == [0.0, 0.0, 0.0, 1.0]
      ensures m[0][3] == position.x && m[1][3] == position.y && m[2][3] == position.z
    {
      FromTransformLayout(position, rotation, scale);
      FromTransform(position, rotation, scale)
    }
  }

  /** The default placement's model matrix is `Mat4::IDENTITY`. */
  lemma DefaultModelMatrixIsIdentity()
    ensures Transform.Default().ModelMatrix() == Identity(4)
  {
    FromTransformOfIdentity();
  }

  /** A placement made by `new` with the default rotation and scale has a
      model matrix that differs from the identity only in the translation
      column. */
  lemma TranslationOnlyModelMatrix(position: Vec3)
    ensures forall i, j :: 0 <= i < 4 && 0 <= j < 3 ==>
      Transform.New(position, Quat.ZERO, Vec3.IDENTITY).ModelMatrix()[i][j] == Identity(4)[i][j]
  {
    var m := Transform.New(position, Quat.ZERO, Vec3.IDENTITY).ModelMatrix();
    var d := Transform.Default().ModelMatrix();
    DefaultModelMatrixIsIdentity();
    ToMat3OfZero();
    forall i, j | 0 <= i < 4 && 0 <= j < 3
      ensures m[i][j] == Identity(4)[i][j]
    {
      assert m[i][j] == d[i][j];
    }
  }
}
