/**
  The library's default error type, `Failure`, and its `Display` rendering
  (src/lib.rs, lines 255-270).
 */
module Failures {

  datatype Failure =
    | InvalidInput(message: string)
    | ArithmeticError(message: string)
    | Custom(message: string)

  /** The fixed text `Display` writes before the message of each variant. */
  function Prefix(f: Failure): string
  {
    match f
    case InvalidInput(_) => "Invalid input: "
    case ArithmeticError(_) => "Arithmetic error: "
    case Custom(_) => "Custom error: "
  }

  /**
    `impl Display for Failure`: the variant's prefix followed by the message.
    The message is carried verbatim at the end, and the first character tells
    the variants apart.
   */
  function Display(f: Failure): (s: string)
    ensures |s| == |Prefix(f)| + |f.message|
    ensures s[..|Prefix(f)|] == Prefix(f)
    ensures s[|Prefix(f)|..] == f.message
    ensures s[0] == (match f case InvalidInput(_) => 'I' case ArithmeticError(_) => 'A' case Custom(_) => 'C')
  {
    Prefix(f) + f.message
  }

  /** Distinct failures render differently: the text shown determines the failure. */
  lemma DisplayInjective(a: Failure, b: Failure)
    requires Display(a) == Display(b)
    ensures a == b
  {
    var s := Display(a);
    assert Prefix(a) == Prefix(b) by {
      assert s[0] == Display(b)[0];
    }
    assert a.message == s[|Prefix(a)|..] == b.message;
  }
}
