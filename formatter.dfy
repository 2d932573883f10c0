/** The text rendering of a `DecodingSafeError` (its `CustomStringConvertible`
    conformance): a header line and one line per recorded failure. */
module Formatter {
  import opened Wrappers
  import opened Errors

  /** How much of a nested report to expand. */
  datatype Verbosity = Full | Multiple | Single {
    /** `to(_:)`: a `full` level forces `full`; any other gives way to `other`. */
    function To(other: Verbosity): (r: Verbosity)
      ensures r.Full? <==> Full? || other.Full?
      ensures !Full? ==> r == other
    {
      if Full? then Full else other
    }
  }

  /** `full` absorbs from either side, and `to` is associative and idempotent. */
  lemma ToAlgebra(a: Verbosity, b: Verbosity, c: Verbosity)
    ensures a.To(Full) == Full && Full.To(a) == Full
    ensures a.To(b).To(c) == a.To(b.To(c))
    ensures a.To(a) == a
  {
  }

  // Decimal text of integers, as Swift's string interpolation writes them.

  predicate IsDigits(s: string) {
    forall i :: 0 <= i < |s| ==> '0' <= s[i] <= '9'
  }

  function DigitChar(d: nat): (c: char)
    requires d < 10
    ensures '0' <= c <= '9'
  {
    ('0' as int + d) as char
  }

  /** `"\(n)"` for a count: decimal digits, no leading zero, one digit exactly below ten. */
  function ShowNat(n: nat): (s: string)
    ensures |s| >= 1 && IsDigits(s)
    ensures n < 10 <==> |s| == 1
    ensures n >= 10 ==> s[0] != '0'
  {
    if n < 10 then [DigitChar(n)] else ShowNat(n / 10) + [DigitChar(n % 10)]
  }

  /** The value of a string of decimal digits. */
  function ParseNat(s: string): nat
    requires IsDigits(s)
  {
    if s == [] then 0 else 10 * ParseNat(s[..|s| - 1]) + (s[|s| - 1] as int - '0' as int)
  }

  /** Reading back the digits gives the count: distinct counts print differently. */
  lemma {:induction false} ParseShowNat(n: nat)
    ensures ParseNat(ShowNat(n)) == n
  {
    if n >= 10 {
      var s := ShowNat(n);
      assert s[..|s| - 1] == ShowNat(n / 10);
      ParseShowNat(n / 10);
    }
  }

  /** `"\(ix)"` for an array index, which is a Swift `Int`. */
  function ShowInt(i: int): (s: string)
    ensures |s| >= 1
    ensures s[0] == '-' <==> i < 0
    ensures i < 0 ==> IsDigits(s[1..])
    ensures i >= 0 ==> IsDigits(s)
  {
    if i < 0 then "-" + ShowNat(-i) else ShowNat(i)
  }

  function ParseInt(s: string): int
    requires |s| >= 1
    requires s[0] == '-' ==> IsDigits(s[1..])
    requires s[0] != '-' ==> IsDigits(s)
  {
    if s[0] == '-' then -(ParseNat(s[1..]) as int) else ParseNat(s)
  }

  /** A minus sign in front of digits negates their value. */
  lemma ParseNegated(t: string)
    requires IsDigits(t)
    ensures ParseInt("-" + t) == -(ParseNat(t) as int)
  {
    assert ("-" + t)[1..] == t;
  }

  /** Distinct indices print differently. */
  lemma ParseShowInt(i: int)
    ensures ParseInt(ShowInt(i)) == i
  {
    if i < 0 {
      var t := ShowNat(-i);
      assert ShowInt(i) == "-" + t;
      ParseNegated(t);
      ParseShowNat(-i);
    } else {
      assert ShowInt(i) == ShowNat(i);
      ParseShowNat(i);
    }
  }

  // The line builder `lines(verbosity:type:reference:errors:)`.

  /** The name printed for each case of `DecodingError`. */
  function KindName(k: ErrorKind): string {
    match k
    case TypeMismatch => "typeMismatch"
    case ValueNotFound => "valueNotFound"
    case KeyNotFound => "keyNotFound"
    case DataCorrupted => "dataCorrupted"
  }

  function RefSuffix(reference: Option<string>): string {
    match reference
    case Some(r) => " with ref: " + r
    case None => ""
  }

  /** The first line of a report on `count` failures in `typeName`. */
  function Header(count: nat, typeName: string, reference: Option<string>): string {
    (if count > 1 then ShowNat(count) + " errors in " + typeName else "1 error in " + typeName)
    + RefSuffix(reference)
  }

  /** For at least one failure the header reads "<n> error in <type>" for one
      and "<n> errors in <type>" otherwise, then " with ref: <r>" exactly when a
      reference is given. */
  lemma HeaderWording(count: nat, typeName: string, reference: Option<string>)
    requires count >= 1
    ensures Header(count, typeName, reference) ==
              ShowNat(count) + (if count == 1 then " error in " else " errors in ") + typeName + RefSuffix(reference)
  {
    assert ShowNat(1) == "1";
  }

  /** The line for one recorded failure: its description, its key, its kind. */
  function EntryLine(entry: (string, DecodingError)): string {
    " " + entry.1.errorDescription.GetOr("") + " " + entry.0 + " " + KindName(entry.1.kind)
  }

  /** One line per entry, in order. */
  function EntryLines(entries: seq<(string, DecodingError)>): (r: seq<string>)
    ensures |r| == |entries|
  {
    if entries == [] then [] else [EntryLine(entries[0])] + EntryLines(entries[1..])
  }

  lemma {:induction false} EntryLinesAt(entries: seq<(string, DecodingError)>)
    ensures |EntryLines(entries)| == |entries|
    ensures forall i :: 0 <= i < |entries| ==> EntryLines(entries)[i] == EntryLine(entries[i])
  {
    if entries != [] {
      EntryLinesAt(entries[1..]);
    }
  }

  lemma {:induction false} EntryLinesAppend(entries: seq<(string, DecodingError)>, x: (string, DecodingError))
    ensures EntryLines(entries + [x]) == EntryLines(entries) + [EntryLine(x)]
  {
    if entries != [] {
      assert (entries + [x])[1..] == entries[1..] + [x];
      EntryLinesAppend(entries[1..], x);
    }
  }

  /** The lines of a report: none for no entries, otherwise the header and one
      line per entry. The verbosity is not used. */
  function RenderLines(verbosity: Verbosity, typeName: string, reference: Option<string>,
                       errors: seq<(string, DecodingError)>): (r: seq<string>)
    ensures |r| == if |errors| == 0 then 0 else |errors| + 1
    ensures |errors| > 0 ==> r[0] == Header(|errors|, typeName, reference)
  {
    if |errors| == 0 then [] else [Header(|errors|, typeName, reference)] + EntryLines(errors)
  }

  /** No entries give no lines; n entries give n + 1 lines: the header, then
      each entry's line in input order. */
  lemma RenderLinesShape(verbosity: Verbosity, typeName: string, reference: Option<string>,
                         errors: seq<(string, DecodingError)>)
    ensures |errors| == 0 ==> RenderLines(verbosity, typeName, reference, errors) == []
    ensures |errors| > 0 ==>
              && |RenderLines(verbosity, typeName, reference, errors)| == |errors| + 1
              && RenderLines(verbosity, typeName, reference, errors)[0] == Header(|errors|, typeName, reference)
              && forall i :: 0 <= i < |errors| ==>
                   RenderLines(verbosity, typeName, reference, errors)[i + 1] == EntryLine(errors[i])
  {
    EntryLinesAt(errors);
  }

  /** `prefix(_:lines:)`, local to `lines`: the first line gets `p` in front,
      every later line is indented by three spaces. */
  function Prefix(p: string, lines: seq<string>): (r: seq<string>)
    ensures |r| == |lines|
    ensures |lines| > 0 ==> r[0] == p + lines[0]
    ensures forall i :: 1 <= i < |lines| ==> r[i] == "   " + lines[i]
  {
    if |lines| == 0 then []
    else [p + lines[0]] + seq(|lines| - 1, i requires 0 <= i < |lines| - 1 => "   " + lines[i + 1])
  }

  /** One turn of the loop in `lines` appends entry i's line. */
  lemma LinesStep(head: string, errors: seq<(string, DecodingError)>, i: nat)
    requires i < |errors|
    ensures [head] + EntryLines(errors[..i]) + [EntryLine(errors[i])] == [head] + EntryLines(errors[..i + 1])
  {
    assert errors[..i + 1] == errors[..i] + [errors[i]];
    EntryLinesAppend(errors[..i], errors[i]);
  }

  /** The first line of `lines`: the count and type, then the reference when
      there is one. */
  method HeadLine(count: nat, typeName: string, reference: Option<string>) returns (head: string)
    ensures head == Header(count, typeName, reference)
  {
    var multiple := count > 1;
    head := if multiple then ShowNat(count) + " errors in " + typeName else "1 error in " + typeName;
    if reference.Some? {
      head := head + " with ref: " + reference.value;
    }
  }

  /** The body of the loop in `lines`: the kind's name, "unknown" until the
      `switch` sets it, then the entry's line. */
  method EntryLineOf(key: string, error: DecodingError) returns (line: string)
    ensures line == EntryLine((key, error))
  {
    var errorName := "unknown";
    match error.kind {
      case TypeMismatch => errorName := "typeMismatch";
      case ValueNotFound => errorName := "valueNotFound";
      case KeyNotFound => errorName := "keyNotFound";
      case DataCorrupted => errorName := "dataCorrupted";
    }
    assert errorName == KindName(error.kind);
    line := " " + error.errorDescription.GetOr("") + " " + key + " " + errorName;
  }

  /** `lines(verbosity:type:reference:errors:)` */
  method Lines(verbosity: Verbosity, typeName: string, reference: Option<string>,
               errors: seq<(string, DecodingError)>) returns (result: seq<string>)
    ensures result == RenderLines(verbosity, typeName, reference, errors)
  {
    if |errors| == 0 {
      return [];
    }
    result := [];
    var head := HeadLine(|errors|, typeName, reference);
    result := result + [head];
    assert result == [head] + EntryLines(errors[..0]);
    for i := 0 to |errors|
      invariant result == [head] + EntryLines(errors[..i])
    {
      var line := EntryLineOf(errors[i].0, errors[i].1);
      LinesStep(head, errors, i);
      result := result + [line];
    }
    assert errors[..|errors|] == errors;
  }

  // `multiline(verbosity:)`, `description` and `fullDescription`.

  /** Array entries keyed "[i]". */
  function IndexKeys(es: seq<(int, DecodingError)>): (r: seq<(string, DecodingError)>)
    ensures |r| == |es|
    ensures forall i :: 0 <= i < |es| ==> r[i] == ("[" + ShowInt(es[i].0) + "]", es[i].1)
  {
    if es == [] then [] else [("[" + ShowInt(es[0].0) + "]", es[0].1)] + IndexKeys(es[1..])
  }

  /** Dictionary and struct entries keyed "key:". */
  function FieldKeys(es: seq<(string, DecodingError)>): (r: seq<(string, DecodingError)>)
    ensures |r| == |es|
    ensures forall i :: 0 <= i < |es| ==> r[i] == (es[i].0 + ":", es[i].1)
  {
    if es == [] then [] else [(es[0].0 + ":", es[0].1)] + FieldKeys(es[1..])
  }

  /** What a report calls the thing that failed. */
  function Label(e: DecodingSafeError): string {
    match e
    case ArrayElementErrors(_) => "array"
    case DictionaryErrors(_) => "dictionary"
    case StructErrors(t, _, _) => t + " struct"
  }

  /** The reference a report shows: only a struct carries one. */
  function ReferenceOf(e: DecodingSafeError): Option<string> {
    match e
    case StructErrors(_, r, _) => r
    case _ => None
  }

  /** `multiline(verbosity:)` */
  function Multiline(e: DecodingSafeError, verbosity: Verbosity): (r: seq<string>)
    ensures |r| == if e.Count() == 0 then 0 else e.Count() + 1
    ensures e.Count() > 0 ==> r[0] == Header(e.Count(), Label(e), ReferenceOf(e))
  {
    match e
    case ArrayElementErrors(es) => RenderLines(verbosity, "array", None, IndexKeys(es))
    case DictionaryErrors(es) => RenderLines(verbosity, "dictionary", None, FieldKeys(es))
    case StructErrors(t, r, es) => RenderLines(verbosity, t + " struct", r, FieldKeys(es))
  }

  /** The report of each variant: the header names "array", "dictionary" or
      "<T> struct" and only a struct passes its reference on; entry i is keyed
      "[i]" in an array and "key:" otherwise. */
  lemma MultilineShape(e: DecodingSafeError, verbosity: Verbosity)
    ensures |Multiline(e, verbosity)| == if e.Count() == 0 then 0 else e.Count() + 1
    ensures e.Count() > 0 ==> Multiline(e, verbosity)[0] == Header(e.Count(), Label(e), ReferenceOf(e))
    ensures e.ArrayElementErrors? ==>
              forall i :: 0 <= i < |e.elementErrors| ==>
                Multiline(e, verbosity)[i + 1] == EntryLine(("[" + ShowInt(e.elementErrors[i].0) + "]", e.elementErrors[i].1))
    ensures e.DictionaryErrors? ==>
              forall i :: 0 <= i < |e.keyErrors| ==>
                Multiline(e, verbosity)[i + 1] == EntryLine((e.keyErrors[i].0 + ":", e.keyErrors[i].1))
    ensures e.StructErrors? ==>
              forall i :: 0 <= i < |e.errors| ==>
                Multiline(e, verbosity)[i + 1] == EntryLine((e.errors[i].0 + ":", e.errors[i].1))
  {
    match e
    case ArrayElementErrors(es) => RenderLinesShape(verbosity, "array", None, IndexKeys(es));
    case DictionaryErrors(es) => RenderLinesShape(verbosity, "dictionary", None, FieldKeys(es));
    case StructErrors(t, r, es) => RenderLinesShape(verbosity, t + " struct", r, FieldKeys(es));
  }

  /** The strings of `parts` run together, in order. */
  function Concat(parts: seq<string>): string
  {
    if |parts| == 0 then "" else parts[0] + Concat(parts[1..])
  }

  /** Every line of `lines` with `sep` put in front of it. */
  function SepEach(lines: seq<string>, sep: string): (r: seq<string>)
    ensures |r| == |lines|
    ensures forall i :: 0 <= i < |lines| ==> r[i] == sep + lines[i]
  {
    seq(|lines|, i requires 0 <= i < |lines| => sep + lines[i])
  }

  /** `lines.joined(separator: sep)`: the first line, then each later line
      after a separator. */
  function Joined(lines: seq<string>, sep: string): (r: string)
    ensures |lines| == 0 ==> r == ""
    ensures |lines| > 0 ==> r == lines[0] + Concat(SepEach(lines[1..], sep))
    ensures |lines| > 0 ==> |lines[0]| <= |r| && r[..|lines[0]|] == lines[0]
  {
    if |lines| == 0 then ""
    else if |lines| == 1 then lines[0]
    else
      assert SepEach(lines[1..], sep)[1..] == SepEach(lines[2..], sep);
      lines[0] + sep + Joined(lines[1..], sep)
  }

  /** `description`: the header line, then each entry line after a newline. */
  function Description(e: DecodingSafeError): (s: string)
    ensures e.Count() == 0 ==> s == ""
    ensures e.Count() > 0 ==>
              s == Header(e.Count(), Label(e), ReferenceOf(e)) + Concat(SepEach(Multiline(e, Multiple)[1..], "\n"))
    ensures e.Count() > 0 ==> var h := Header(e.Count(), Label(e), ReferenceOf(e));
                               |h| <= |s| && s[..|h|] == h
  {
    Joined(Multiline(e, Multiple), "\n")
  }

  /** `fullDescription`: the header line, then each entry line after a newline. */
  function FullDescription(e: DecodingSafeError): (s: string)
    ensures e.Count() == 0 ==> s == ""
    ensures e.Count() > 0 ==>
              s == Header(e.Count(), Label(e), ReferenceOf(e)) + Concat(SepEach(Multiline(e, Full)[1..], "\n"))
    ensures e.Count() > 0 ==> var h := Header(e.Count(), Label(e), ReferenceOf(e));
                               |h| <= |s| && s[..|h|] == h
  {
    Joined(Multiline(e, Full), "\n")
  }

  /** The rendering does not depend on the verbosity, so the two descriptions agree. */
  lemma DescriptionIsFull(e: DecodingSafeError)
    ensures forall v, w :: Multiline(e, v) == Multiline(e, w)
    ensures Description(e) == FullDescription(e)
  {
  }

  // `line` and `listItem(collapsed:)`, which no live code calls.

  /** The count part of `line`: "(1 error " before `singular` for one
      failure, "(<count> errors " before `plural` otherwise. */
  function Summary(n: nat, singular: string, plural: string): (s: string)
    ensures |s| >= 3 && s[0] == '('
  {
    if n == 1 then "(1 error " + singular else "(" + ShowNat(n) + " errors " + plural
  }

  /** `line`: a one-line summary. */
  function Line(e: DecodingSafeError): (s: string)
    ensures |s| >= 3 && s[0] == '('
  {
    match e
    case ArrayElementErrors(es) => Summary(|es|, "in an array element)", "in array elements)")
    case DictionaryErrors(es) => Summary(|es|, "in dictionary)", "in dictionary)")
    case StructErrors(t, r, es) =>
      Summary(|es|, "in nested " + t + " struct)", "in nested " + t + " struct)")
      + (match r case Some(ref) => " with reference " + ref case None => "")
  }

  /** A plural line starts with "(", the count and a space, so it starts
      with "(1 " only when the count is one. */
  lemma PluralPrefix(n: nat, rest: string, tail: string)
    requires |rest| >= 1 && rest[0] == ' '
    ensures |"(" + ShowNat(n) + rest + tail| >= 3
    ensures ("(" + ShowNat(n) + rest + tail)[..3] == "(1 " <==> n == 1
  {
    var s := ShowNat(n);
    var line := "(" + s + rest + tail;
    assert line[0] == '(' && line[1] == s[0];
    if n == 1 {
      assert s == "1";
      assert line[2] == rest[0];
      assert line[..3] == "(1 ";
    } else if n < 10 {
      assert s == [DigitChar(n)];
      assert line[1] != '1';
    } else {
      assert line[2] == s[1];
    }
  }

  /** `s` begins with `p`. */
  predicate StartsWith(s: string, p: string)
  {
    |p| <= |s| && s[..|p|] == p
  }

  /** A concatenation starts with its left part. */
  lemma StartsWithConcat(p: string, rest: string)
    ensures StartsWith(p + rest, p)
  {
    assert (p + rest)[..|p|] == p;
  }

  /** Starting with a string that starts with `q` means starting with `q`. */
  lemma StartsWithTrans(s: string, p: string, q: string)
    requires StartsWith(s, p) && StartsWith(p, q)
    ensures StartsWith(s, q)
  {
    assert s[..|q|] == s[..|p|][..|q|];
  }

  /** A suffix keeps the first characters of a text. */
  lemma StartsWithExtended(s: string, tail: string, p: string)
    requires StartsWith(s, p)
    ensures StartsWith(s + tail, p)
  {
    StartsWithConcat(s, tail);
    StartsWithTrans(s + tail, s, p);
  }

  /** The singular summary "(1 error " + `after`. */
  lemma SingularWording(after: string)
    ensures ("(1 error " + after)[..3] == "(1 "
    ensures StartsWith("(1 error " + after, "(1 error ")
  {
    StartsWithConcat("(1 error ", after);
    assert ("(1 error " + after)[..3] == "(1 error "[..3];
  }

  /** The plural summary "(" + count + " errors " + `after`. */
  lemma PluralWording(n: nat, after: string)
    ensures ("(" + ShowNat(n) + " errors " + after)[..3] == "(1 " <==> n == 1
    ensures StartsWith("(" + ShowNat(n) + " errors " + after, "(" + ShowNat(n) + " errors ")
  {
    assert "(" + ShowNat(n) + " errors " + after == "(" + ShowNat(n) + (" errors " + after) + "";
    PluralPrefix(n, " errors " + after, "");
    StartsWithConcat("(" + ShowNat(n) + " errors ", after);
  }

  /** `Summary` uses the singular wording exactly for one failure. */
  lemma SummaryWording(n: nat, singular: string, plural: string)
    ensures Summary(n, singular, plural)[..3] == "(1 " <==> n == 1
    ensures n == 1 ==> StartsWith(Summary(n, singular, plural), "(1 error ")
    ensures n != 1 ==> StartsWith(Summary(n, singular, plural), "(" + ShowNat(n) + " errors ")
  {
    if n == 1 {
      SingularWording(singular);
    } else {
      PluralWording(n, plural);
    }
  }

  /** `line` uses the singular wording "(1 error ..." exactly for one failure
      and "(<count> errors ..." otherwise. */
  lemma LineSingularIff(e: DecodingSafeError)
    ensures |Line(e)| >= 3
    ensures Line(e)[..3] == "(1 " <==> e.Count() == 1
    ensures e.Count() == 1 ==> StartsWith(Line(e), "(1 error ")
    ensures e.Count() != 1 ==> StartsWith(Line(e), "(" + ShowNat(e.Count()) + " errors ")
  {
    match e
    case ArrayElementErrors(es) =>
      SummaryWording(|es|, "in an array element)", "in array elements)");
    case DictionaryErrors(es) =>
      SummaryWording(|es|, "in dictionary)", "in dictionary)");
    case StructErrors(t, r, es) =>
      var words := "in nested " + t + " struct)";
      var tail := match r case Some(ref) => " with reference " + ref case None => "";
      var head := Summary(|es|, words, words);
      assert Line(e) == head + tail;
      SummaryWording(|es|, words, words);
      assert Line(e)[..3] == head[..3];
      if |es| == 1 {
        StartsWithExtended(head, tail, "(1 error ");
      } else {
        StartsWithExtended(head, tail, "(" + ShowNat(|es|) + " errors ");
      }
  }

  /** `line` ends in " with reference <r>" for a struct with a reference, and
      in ")" otherwise. */
  lemma LineReference(e: DecodingSafeError)
    ensures e.StructErrors? && e.reference.Some? ==>
              var tail := " with reference " + e.reference.value;
              |Line(e)| > |tail| && Line(e)[|Line(e)| - |tail|..] == tail
    ensures !(e.StructErrors? && e.reference.Some?) ==> Line(e)[|Line(e)| - 1] == ')'
  {
  }

  /** `listItem(collapsed:)`: a one-character marker, the same for every variant. */
  function ListItem(e: DecodingSafeError, collapsed: bool): (s: string)
    ensures |s| == 1
    ensures collapsed <==> s == "\U{25B9}"
    ensures !collapsed ==> s == "\U{25BF}"
  {
    match e
    case ArrayElementErrors(_) | DictionaryErrors(_) | StructErrors(_, _, _) =>
      if collapsed then "\U{25B9}" else "\U{25BF}"
  }
}
