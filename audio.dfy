/** The per-frame record of band energies produced by the sound analyser. */
module Audio {

  datatype Bands = Bands(bass: real, mid: real, treble: real)

  /** What the partition receives: possibly no object at all. */
  datatype Input = Missing | Present(bands: Bands)

  const Silence := Bands(0.0, 0.0, 0.0)

  predicate NonNegative(b: Bands)
  {
    b.bass >= 0.0 && b.mid >= 0.0 && b.treble >= 0.0
  }

  /** A missing or non-object frame is read as all zeros. */
  function Safe(a: Input): (b: Bands)
    ensures a.Missing? ==> b == Silence
    ensures a.Present? ==> b == a.bands
  {
    match a
    case Missing => Silence
    case Present(bands) => bands
  }
}
