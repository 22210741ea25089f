/** The quick-pick choices for a JSON Web Key, shared by `import jwk` and `create jwk`. */
module JwkChoices {
  /** The algorithm pick (default RS256). */
  datatype Algorithm = RS256 | RS512 | ES256 | ES512 | EdDSA

  function AlgorithmLabel(a: Algorithm): string
  {
    match a
    case RS256 => "RS256"
    case RS512 => "RS512"
    case ES256 => "ES256"
    case ES512 => "ES512"
    case EdDSA => "EdDSA"
  }

  /** The intended-use pick (default sig). */
  datatype KeyUse = Sig | Enc

  function UseLabel(u: KeyUse): string
  {
    match u
    case Sig => "sig"
    case Enc => "enc"
  }

  /** The labels as the CLI receives them. */
  const AlgorithmLabels: set<string> := {"RS256", "RS512", "ES256", "ES512", "EdDSA"}
  const UseLabels: set<string> := {"sig", "enc"}

  /** Every pick is passed as one of the CLI's accepted spellings, and different picks differ. */
  lemma LabelsAccepted(a: Algorithm, b: Algorithm, u: KeyUse, v: KeyUse)
    ensures AlgorithmLabel(a) in AlgorithmLabels && UseLabel(u) in UseLabels
    ensures AlgorithmLabel(a) == AlgorithmLabel(b) <==> a == b
    ensures UseLabel(u) == UseLabel(v) <==> u == v
  {
    if a != b {
      var x, y := AlgorithmLabel(a), AlgorithmLabel(b);
      assert x[0] != y[0] || x[1] != y[1] || x[2] != y[2];
    }
    if u != v {
      assert UseLabel(u)[0] != UseLabel(v)[0];
    }
  }
}
