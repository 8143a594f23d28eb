/** Named rows as the modelled code handles them: a Python dict, a row of a
    pandas DataFrame read from CSV, or the JSON body of a request. Values
    are numbers or text. */
module Records {
  import opened Outcomes
  import opened Text
  import Numbers

  datatype Value = Num(n: real) | Text(s: string)

  type Record = map<string, Value>

  /** `row[key]` used as a number: a KeyError when the key is absent, a
      conversion error when the value is text. */
  function Number(row: Record, key: string): (r: Result<real>)
    ensures r.Ok? <==> key in row && row[key].Num?
    ensures r.Ok? ==> r.value == row[key].n
    ensures key !in row ==> r == Err(MissingKey(key))
  {
    if key !in row then Err(MissingKey(key))
    else if row[key].Text? then Err(NotNumeric(row[key].s))
    else Ok(row[key].n)
  }

  /** `row.get(key, default)` used as a number. */
  function NumberOr(row: Record, key: string, default: real): (r: Result<real>)
    ensures key !in row ==> r == Ok(default)
    ensures key in row ==> r == Number(row, key)
  {
    if key in row then Number(row, key) else Ok(default)
  }

  /** pandas `df[columns]` on one row: the numeric values of the named
      columns, in the order the columns are listed. */
  function Select(row: Record, columns: seq<string>): (r: Result<seq<real>>)
    ensures r.Ok? <==> forall k :: 0 <= k < |columns| ==> Number(row, columns[k]).Ok?
    ensures r.Ok? ==> |r.value| == |columns|
    ensures r.Ok? ==> forall k :: 0 <= k < |columns| ==> r.value[k] == row[columns[k]].n
    decreases |columns|
  {
    if |columns| == 0 then Ok([])
    else
      match Number(row, columns[0])
      case Err(f) => Err(f)
      case Ok(x) =>
        match Select(row, columns[1..])
        case Err(f) => Err(f)
        case Ok(rest) => Ok([x] + rest)
  }

  /** Only the selected columns matter: fields outside them, however many
      and in whatever order, leave the selection unchanged. */
  lemma {:induction false} SelectIgnoresOtherFields(row: Record, extra: Record, columns: seq<string>)
    requires forall k :: 0 <= k < |columns| ==> columns[k] !in extra
    ensures Select(row + extra, columns) == Select(row, columns)
    decreases |columns|
  {
    if |columns| > 0 {
      assert Number(row + extra, columns[0]) == Number(row, columns[0]);
      SelectIgnoresOtherFields(row, extra, columns[1..]);
    }
  }

  /** A selection reads nothing but its columns: two rows that agree on the
      selected columns select the same values (or fail alike). */
  lemma {:induction false} SelectReadsOnlyColumns(row1: Record, row2: Record, columns: seq<string>)
    requires forall k :: 0 <= k < |columns| ==> (columns[k] in row1 <==> columns[k] in row2)
    requires forall k :: 0 <= k < |columns| && columns[k] in row1 ==> row1[columns[k]] == row2[columns[k]]
    ensures Select(row1, columns) == Select(row2, columns)
    decreases |columns|
  {
    if |columns| > 0 {
      assert Number(row1, columns[0]) == Number(row2, columns[0]);
      SelectReadsOnlyColumns(row1, row2, columns[1..]);
    }
  }

  // ---------------------------------------------------------------------
  // Request values

  /** Python's `float(v)` on a request value: a number as it is, text
      parsed as an unsigned decimal. */
  function Float(v: Value): (r: Result<real>)
    ensures v.Num? ==> r == Ok(v.n)
    ensures v.Text? ==> (r.Ok? <==> ParseDecimal(v.s).Ok?)
    ensures v.Text? && r.Ok? ==> r.value == ParseDecimal(v.s).value
  {
    match v
    case Num(n) => Ok(n)
    case Text(s) => ParseDecimal(s)
  }

  /** `float(data.get(key, default))`. */
  function FloatOr(data: Record, key: string, default: real): (r: Result<real>)
    ensures key !in data ==> r == Ok(default)
    ensures key in data ==> r == Float(data[key])
  {
    if key in data then Float(data[key]) else Ok(default)
  }

  /** Python's `int(v)` on a request value: a number truncated toward zero,
      text parsed as unsigned digits (a decimal point in text is a
      ValueError). */
  function Int(v: Value): (r: Result<int>)
    ensures v.Num? ==> r == Ok(Numbers.Truncate(v.n))
    ensures v.Text? ==> (r.Ok? <==> ParseNat(v.s).Ok?)
    ensures v.Text? && r.Ok? ==> r.value == ParseNat(v.s).value
  {
    match v
    case Num(n) => Ok(Numbers.Truncate(n))
    case Text(s) =>
      match ParseNat(s)
      case Ok(k) => Ok(k)
      case Err(f) => Err(f)
  }

  /** `int(data.get(key, default))`. */
  function IntOr(data: Record, key: string, default: int): (r: Result<int>)
    ensures key !in data ==> r == Ok(default)
    ensures key in data ==> r == Int(data[key])
  {
    if key in data then Int(data[key]) else Ok(default)
  }

  /** A number sent as text reads as the same value as the number itself. */
  lemma FloatOfDigits(n: nat)
    ensures Float(Text(Digits(n))) == Float(Num(n as real))
    ensures Int(Text(Digits(n))) == Int(Num(n as real))
  {
    ValueOfDigits(n);
  }
}
