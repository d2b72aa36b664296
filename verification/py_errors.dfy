/** The Python exceptions the modelled code raises, catches or lets through. */
module PyErrors {

  /**
   * The class of an exception. The built-in classes the modelled code names have their own
   * constructors. A class derived from one of them is `Subclass`, which keeps its own name and
   * its base, e.g. `Subclass("UnicodeDecodeError", Subclass("UnicodeError", ValueError))`. A
   * class outside these hierarchies is `OtherError`.
   */
  datatype ErrorKind =
    | ValueError
    | RuntimeError
    | KeyError
    | NameError
    | FileNotFoundError
    | Subclass(className: string, base: ErrorKind)
    | OtherError(className: string)

  /** Python's `isinstance(err, cls)` on classes: `kind` is `cls` or derives from it. */
  predicate IsInstanceOf(kind: ErrorKind, cls: ErrorKind) {
    kind == cls || (kind.Subclass? && IsInstanceOf(kind.base, cls))
  }

  /** A raised exception: its class and the text `str(err)` renders. */
  datatype PyError = PyError(kind: ErrorKind, message: string)

  /**
   * The `KeyError` a failed `mapping[key]` raises for a string key. `str(err)` of a `KeyError` is
   * the `repr` of the key: the key in single quotes, or in double quotes when it holds a single
   * quote and no double quote.
   */
  function MissingKey(key: string): (e: PyError)
    ensures e.kind == KeyError
    ensures |e.message| == |key| + 2 && e.message[1..|e.message| - 1] == key
    ensures var q := e.message[0];
            && e.message[|e.message| - 1] == q
            && (q == '"' <==> ('\'' in key && '"' !in key))
            && (q != '"' ==> q == '\'')
  {
    var q := if '\'' in key && '"' !in key then '"' else '\'';
    PyError(KeyError, [q] + key + [q])
  }

  /** `str(KeyError("df"))` is `'df'`, and a key holding a single quote is shown in double quotes. */
  lemma MissingKeyExamples()
    ensures MissingKey("df").message == "'df'"
    ensures MissingKey("it's").message == "\"it's\""
  {
    assert "'" + "df" + "'" == "'df'";
    assert '\'' in "it's";
    assert "\"" + "it's" + "\"" == "\"it's\"";
  }
}
