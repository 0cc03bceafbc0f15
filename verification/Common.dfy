/** Small datatypes and sequence facts that several components share. */
module Common {

  datatype Option<+T> = None | Some(value: T)

  /** The error classes of the executor package (CodeSchemaInvalid and its siblings). */
  datatype Code =
    | SchemaInvalid
    | TaskInvalid
    | DigestMismatch
    | IdentityMismatch
    | HostMismatch
    | ArtifactInvalid
    | ResultInvalid
    | StaleAssignment
    | ResultConflict
    | InputOutput

  /** A value or the class of the error that withheld it. */
  datatype Outcome<+T> = Ok(value: T) | Err(code: Code) {
    predicate IsFailure() { Err? }

    function PropagateFailure<U>(): Outcome<U>
      requires Err?
    {
      Err(code)
    }

    function Extract(): T
      requires Ok?
    {
      value
    }
  }

  /** A check that passes or names the class of its error. */
  datatype Verdict = Pass | Fail(code: Code) {
    predicate IsFailure() { Fail? }

    function PropagateFailure<U>(): Outcome<U>
      requires Fail?
    {
      Err(code)
    }
  }

  function Check(holds: bool, code: Code): Verdict {
    if holds then Pass else Fail(code)
  }

  /**
   * A SHA-256 digest field: the digest of a preimage, or text that is no 64-digit hexadecimal digest.
   * Two digests are equal exactly when their preimages are, the usual collision-free idealisation.
   */
  datatype Sum<+T> = Sum(preimage: T) | NotHex(text: string)

  /** The surrogate code points, and the UTF-16 units that stand for half a character. */
  predicate High(v: int) { 0xD800 <= v <= 0xDBFF }

  predicate Low(v: int) { 0xDC00 <= v <= 0xDFFF }

  lemma Regroup<T>(x: T, a: seq<T>, b: seq<T>)
    ensures [x] + (a + b) == [x] + a + b
  {
  }

  lemma Reassociate<T>(a: seq<T>, b: seq<T>, c: seq<T>)
    ensures a + b + c == a + (b + c)
  {
  }

  predicate Infix<T(==)>(part: seq<T>, whole: seq<T>) {
    exists i | 0 <= i <= |whole| :: part <= whole[i..]
  }

  lemma InfixAt<T>(before: seq<T>, part: seq<T>, after: seq<T>)
    ensures Infix(part, before + part + after)
  {
    var whole := before + part + after;
    assert whole[|before|..] == part + after;
  }

  lemma InfixSplits<T>(part: seq<T>, whole: seq<T>) returns (before: seq<T>, after: seq<T>)
    requires Infix(part, whole)
    ensures whole == before + part + after
  {
    var i :| 0 <= i <= |whole| && part <= whole[i..];
    before, after := whole[..i], whole[i + |part|..];
    assert whole[i..][..|part|] == whole[i..i + |part|];
  }

  lemma InfixTransitive<T>(a: seq<T>, b: seq<T>, c: seq<T>)
    requires Infix(a, b) && Infix(b, c)
    ensures Infix(a, c)
  {
    var i :| 0 <= i <= |b| && a <= b[i..];
    var j :| 0 <= j <= |c| && b <= c[j..];
    assert c[j..][..|b|] == b;
    assert c[i + j..][..|b| - i] == b[i..];
    assert a <= c[i + j..];
  }
}
