/** The pose transform of the request the program makes when every field is
    left out. */
module PoseExamples {
  import Paper
  import opened Matrix
  import opened Pose

  /** The default request on A4 portrait: the rotation is the flip and the
      translation is (-105, 148.5, 0) mm, i.e. (-0.105, 0.1485, 0) m. */
  lemma DefaultPose()
    ensures Calculate(DefaultRequest) ==
      Transform(Mat4(Row4(1.0, 0.0, 0.0, -105.0),
                     Row4(0.0, -1.0, 0.0, 148.5),
                     Row4(0.0, 0.0, -1.0, 0.0),
                     Row4(0.0, 0.0, 0.0, 1.0)),
                Vec3(-0.105, 0.1485, 0.0))
  {
    DefaultRotation();
    DefaultAssembly();
  }

  lemma DefaultRotation()
    ensures Calculate(DefaultRequest) == Assemble(Flip, DefaultRequest)
  {
    ZeroAnglesGiveFlip();
  }

  lemma DefaultAssembly()
    ensures Assemble(Flip, DefaultRequest) ==
      Transform(Mat4(Row4(1.0, 0.0, 0.0, -105.0),
                     Row4(0.0, -1.0, 0.0, 148.5),
                     Row4(0.0, 0.0, -1.0, 0.0),
                     Row4(0.0, 0.0, 0.0, 1.0)),
                Vec3(-0.105, 0.1485, 0.0))
  {
    DefaultMatrix();
    DefaultMetres();
  }

  lemma DefaultMatrix()
    ensures Assemble(Flip, DefaultRequest).matrix ==
      Mat4(Row4(1.0, 0.0, 0.0, -105.0),
           Row4(0.0, -1.0, 0.0, 148.5),
           Row4(0.0, 0.0, -1.0, 0.0),
           Row4(0.0, 0.0, 0.0, 1.0))
  {
  }

  lemma DefaultMetres()
    ensures Assemble(Flip, DefaultRequest).translationM == Vec3(-0.105, 0.1485, 0.0)
  {
    MetresOfRequest(Flip, DefaultRequest);
    DefaultTranslation();
    DefaultTranslationInMetres();
  }

  /** The metric translation of any request is its millimetre translation,
      scaled. */
  lemma MetresOfRequest(r: Mat3, req: PoseRequest)
    ensures Assemble(r, req).translationM
            == ToMetres(Translation(Paper.Dimensions(req.paperSize, req.orientation), req.offset))
  {
  }

  lemma DefaultTranslation()
    ensures Translation(Paper.Dimensions(DefaultRequest.paperSize, DefaultRequest.orientation),
                        DefaultRequest.offset) == Vec3(-105.0, 148.5, 0.0)
  {
    DefaultPage();
    HalfA4Portrait();
  }

  lemma DefaultPage()
    ensures Paper.Dimensions(DefaultRequest.paperSize, DefaultRequest.orientation) == Paper.Dims(210.0, 297.0)
    ensures DefaultRequest.offset == Vec3(0.0, 0.0, 0.0)
  {
  }

  lemma HalfA4Portrait()
    ensures Translation(Paper.Dims(210.0, 297.0), Vec3(0.0, 0.0, 0.0)) == Vec3(-105.0, 148.5, 0.0)
  {
  }

  lemma DefaultTranslationInMetres()
    ensures ToMetres(Vec3(-105.0, 148.5, 0.0)) == Vec3(-0.105, 0.1485, 0.0)
  {
  }
}
