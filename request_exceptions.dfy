/**
 * The request exception of the GitHub client core: a structured API error
 * payload together with the HTTP status it came with, and the rules that
 * turn both into one human-readable message.
 */
module RequestException {
  import opened Wrappers
  import opened Decimal
  import opened MessageFormat

  /** The field-error codes the formatter recognises. */
  const CodeInvalid: string := "invalid"
  const CodeMissingField: string := "missing_field"

  /** One malformed-field condition reported by the server. */
  datatype FieldError = FieldError(resource: string, field: string, code: Option<string>, value: Option<string>)

  /** The error payload: an optional top-level message and an optional list of field errors. */
  datatype RequestError = RequestError(message: Option<string>, errors: Option<seq<FieldError>>)

  /** The four message patterns; argument 0 and 1 are as the formatter passes them. */
  const FieldInvalidWithValue: Pattern :=
    [Text("Invalid value of '"), Arg(0), Text("' for field '"), Arg(1), Text("'")]
  const FieldInvalid: Pattern :=
    [Text("Invalid value for field '"), Arg(0), Text("'")]
  const FieldMissing: Pattern :=
    [Text("Missing required field '"), Arg(0), Text("'")]
  const FieldErrorPattern: Pattern :=
    [Text("Error with field '"), Arg(0), Text("' in "), Arg(1), Text(" resource")]

  /**
   * The explanation of one field error, chosen by its code. Every
   * explanation ends in a quote or in "resource", never in a comma.
   */
  function FormatField(e: FieldError): (r: string)
    ensures |r| > 0 && r[|r| - 1] in {'\'', 'e'}
  {
    if e.code == Some(CodeInvalid) then
      if e.value.Some? then
        MessageFormat.Format(FieldInvalidWithValue, [e.value.value, e.field])
      else
        MessageFormat.Format(FieldInvalid, [e.field])
    else if e.code == Some(CodeMissingField) then
      MessageFormat.Format(FieldMissing, [e.field])
    else
      MessageFormat.Format(FieldErrorPattern, [e.field, e.resource])
  }

  /** The explanations of a list of field errors, in list order. */
  function Fragments(es: seq<FieldError>): (r: seq<string>)
    ensures |r| == |es|
  {
    seq(|es|, i requires 0 <= i < |es| => FormatField(es[i]))
  }

  /** The strings of `xs` with `sep` between consecutive ones. */
  function Join(sep: string, xs: seq<string>): string {
    if |xs| == 0 then ""
    else if |xs| == 1 then xs[0]
    else xs[0] + sep + Join(sep, xs[1..])
  }

  /** The leading part of the message: `M (S)` for a non-empty message M, else the bare status S. */
  function StatusPrefix(message: Option<string>, status: int): string {
    var m := if message.Some? then message.value else "";
    if |m| > 0 then m + " (" + ToDecimal(status) + ")" else ToDecimal(status)
  }

  predicate HasFieldErrors(err: RequestError) {
    err.errors.Some? && |err.errors.value| > 0
  }

  /**
   * The formatted message: the status prefix and, when there are field
   * errors, a colon followed by their explanations, each after a space and
   * separated by commas.
   */
  function FormattedErrors(err: RequestError, status: int): string {
    StatusPrefix(err.message, status)
      + if HasFieldErrors(err) then ": " + Join(", ", Fragments(err.errors.value)) else ""
  }

  /** A request exception; both fields are fixed at construction. */
  datatype RequestException = RequestException(error: Option<RequestError>, status: Int32) {

    function GetError(): (r: Option<RequestError>)
      ensures r == error
    {
      error
    }

    function GetStatus(): (r: Int32)
      ensures r == status
    {
      status
    }

    /**
     * The exception message: the formatted error when there is one, and
     * otherwise the message of the underlying I/O exception, which is absent
     * because none is passed to it.
     */
    function GetMessage(): (r: Option<string>)
      ensures r.Some? <==> error.Some?
      ensures r.Some? ==> r.value == FormattedErrors(error.value, status)
    {
      if error.Some? then Some(FormattedErrors(error.value, status)) else None
    }

    /**
     * Builds the formatted message in a string buffer: the prefix, then
     * `' ' + explanation + ','` per field error, then the last comma removed.
     */
    method FormatErrors() returns (r: string)
      requires error.Some?
      ensures r == FormattedErrors(error.value, status)
    {
      var errorMessage := error.value.message;
      if errorMessage.None? {
        errorMessage := Some("");
      }
      var message := errorMessage.value;
      if |message| > 0 {
        message := message + " (" + ToDecimal(status) + ")";
      } else {
        message := message + ToDecimal(status);
      }
      ghost var prefix := message;
      assert prefix == StatusPrefix(error.value.message, status);
      var errors := error.value.errors;
      if errors.Some? && |errors.value| > 0 {
        message := message + ":";
        var es := errors.value;
        assert Listed(Fragments(es[..0])) == "";
        for i := 0 to |es|
          invariant message == prefix + ":" + Listed(Fragments(es[..i]))
        {
          BufferStep(prefix + ":", es, i);
          message := message + " " + FormatField(es[i]) + ",";
        }
        DropTrailingComma(prefix, es);
        message := message[..|message| - 1];
      }
      r := message;
    }
  }

  /**
   * What the buffer holds after the explanations `frags` were appended, each
   * after a space and followed by a comma.
   */
  function Listed(frags: seq<string>): string {
    if |frags| == 0 then "" else " " + Join(", ", frags) + ","
  }

  lemma ListedSnoc(frags: seq<string>, f: string)
    ensures Listed(frags + [f]) == Listed(frags) + " " + f + ","
  {
    if |frags| > 0 {
      JoinSnoc(", ", frags, f);
    } else {
      assert frags + [f] == [f];
    }
  }

  /** Dropping the last character of a non-empty listing leaves the joined explanations. */
  lemma ListedDropComma(frags: seq<string>)
    requires |frags| > 0
    ensures |Listed(frags)| > 0
    ensures Listed(frags)[..|Listed(frags)| - 1] == " " + Join(", ", frags)
  {
  }

  /** One turn of the formatting loop appends the next explanation to the listing. */
  lemma BufferStep(head: string, es: seq<FieldError>, i: nat)
    requires i < |es|
    ensures head + Listed(Fragments(es[..i])) + " " + FormatField(es[i]) + ","
         == head + Listed(Fragments(es[..i + 1]))
  {
    assert Fragments(es[..i + 1]) == Fragments(es[..i]) + [FormatField(es[i])];
    ListedSnoc(Fragments(es[..i]), FormatField(es[i]));
  }

  /** Removing the buffer's last character after the loop leaves the colon and the joined explanations. */
  lemma DropTrailingComma(prefix: string, es: seq<FieldError>)
    requires |es| > 0
    ensures var buffer := prefix + ":" + Listed(Fragments(es[..|es|]));
            |buffer| > 0 && buffer[..|buffer| - 1] == prefix + (": " + Join(", ", Fragments(es)))
  {
    assert es[..|es|] == es;
    var listed := Listed(Fragments(es));
    ListedDropComma(Fragments(es));
    DropLast(prefix + ":", listed);
    Regroup(prefix, Join(", ", Fragments(es)));
  }

  /** Deleting the last character of `a + b`, for a non-empty `b`, deletes it from `b`. */
  lemma DropLast(a: string, b: string)
    requires |b| > 0
    ensures (a + b)[..|a + b| - 1] == a + b[..|b| - 1]
  {
  }

  lemma Regroup(prefix: string, j: string)
    ensures prefix + ":" + (" " + j) == prefix + (": " + j)
  {
    assert ": " == ":" + " ";
  }

  /** Appending one more string to a non-empty join adds one separator and that string. */
  lemma {:induction false} JoinSnoc(sep: string, xs: seq<string>, y: string)
    requires |xs| > 0
    ensures Join(sep, xs + [y]) == Join(sep, xs) + sep + y
  {
    if |xs| > 1 {
      assert (xs + [y])[1..] == xs[1..] + [y];
      JoinSnoc(sep, xs[1..], y);
    }
  }

  /** A non-empty join ends with its last string. */
  lemma {:induction false} JoinEndsWithLast(sep: string, xs: seq<string>)
    requires |xs| > 0
    ensures |Join(sep, xs)| >= |xs[|xs| - 1]|
    ensures Join(sep, xs)[|Join(sep, xs)| - |xs[|xs| - 1]|..] == xs[|xs| - 1]
  {
    if |xs| > 1 {
      JoinEndsWithLast(sep, xs[1..]);
    }
  }

  /** Code "invalid" with a value names the value and the field. */
  lemma InvalidWithValue(resource: string, field: string, value: string)
    ensures FormatField(FieldError(resource, field, Some(CodeInvalid), Some(value)))
         == "Invalid value of '" + value + "' for field '" + field + "'"
  {
    FormatFive(FieldInvalidWithValue, [value, field]);
  }

  /** Code "invalid" without a value names the field only. */
  lemma InvalidWithoutValue(resource: string, field: string)
    ensures FormatField(FieldError(resource, field, Some(CodeInvalid), None))
         == "Invalid value for field '" + field + "'"
  {
    FormatThree(FieldInvalid, [field]);
  }

  /** Code "missing_field" names the field, whatever the value. */
  lemma MissingField(resource: string, field: string, value: Option<string>)
    ensures FormatField(FieldError(resource, field, Some(CodeMissingField), value))
         == "Missing required field '" + field + "'"
  {
    FormatThree(FieldMissing, [field]);
  }

  /** Any other code, an absent one included, names the field and the resource. */
  lemma OtherCode(resource: string, field: string, code: Option<string>, value: Option<string>)
    requires code != Some(CodeInvalid) && code != Some(CodeMissingField)
    ensures FormatField(FieldError(resource, field, code, value))
         == "Error with field '" + field + "' in " + resource + " resource"
  {
    FormatFive(FieldErrorPattern, [field, resource]);
  }

  /** A non-empty message and no field errors give exactly `M (S)`. */
  lemma MessageOnly(err: RequestError, status: int)
    requires err.message.Some? && |err.message.value| > 0
    requires !HasFieldErrors(err)
    ensures FormattedErrors(err, status) == err.message.value + " (" + ToDecimal(status) + ")"
  {
  }

  /** An absent or empty message leaves the bare status as prefix: no space, no parentheses. */
  lemma BareStatus(err: RequestError, status: int)
    requires err.message.None? || err.message == Some("")
    ensures StatusPrefix(err.message, status) == ToDecimal(status)
    ensures !HasFieldErrors(err) ==> FormattedErrors(err, status) == ToDecimal(status)
    ensures ' ' !in ToDecimal(status) && '(' !in ToDecimal(status) && ')' !in ToDecimal(status)
  {
    forall i | 0 <= i < |ToDecimal(status)| ensures ToDecimal(status)[i] !in {' ', '(', ')'} {
      DecimalCharacters(status, i);
    }
  }

  /**
   * With field errors, the message is the prefix, a colon, and the
   * explanations; it ends with the last explanation, so there is no trailing
   * comma.
   */
  lemma FieldErrorsMessage(err: RequestError, status: int)
    requires HasFieldErrors(err)
    ensures var r := FormattedErrors(err, status);
            var prefix := StatusPrefix(err.message, status);
            var last := FormatField(err.errors.value[|err.errors.value| - 1]);
            && |r| > |prefix| + 1 + |last|
            && r[..|prefix| + 2] == prefix + ": "
            && r[|r| - |last|..] == last
            && r[|r| - 1] != ','
  {
    var es := err.errors.value;
    var frags := Fragments(es);
    var last := FormatField(es[|es| - 1]);
    assert frags[|frags| - 1] == last;
    JoinEndsWithLast(", ", frags);
    ColonThenJoined(StatusPrefix(err.message, status), Join(", ", frags), last);
  }

  /**
   * Putting the prefix and a colon in front of joined explanations that end
   * with `last` keeps the prefix at the start and `last` at the end.
   */
  lemma ColonThenJoined(prefix: string, j: string, last: string)
    requires |j| >= |last| > 0 && j[|j| - |last|..] == last && last[|last| - 1] != ','
    ensures var r := prefix + (": " + j);
            && |r| > |prefix| + 1 + |last|
            && r[..|prefix| + 2] == prefix + ": "
            && r[|r| - |last|..] == last
            && r[|r| - 1] != ','
  {
    var r := prefix + (": " + j);
    assert r[..|prefix| + 2] == prefix + ": ";
    assert r[|r| - |last|..] == j[|j| - |last|..];
    assert r[|r| - 1] == last[|last| - 1];
  }
}
