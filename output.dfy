/** The OUTPUT declarations of ecl_quantile: the three format tags, the
    choice of writer for a format, the table of declared outputs, and
    the qualifier written on the third S3Graph header line. */
module Outputs {
  import opened Fallible

  datatype Format = S3Graph | Header | Plain

  /** The literal tag of each format in an OUTPUT line. */
  function FormatTag(f: Format): string
  {
    match f
    case S3Graph => "S3GRAPH"
    case Header => "HEADER"
    case Plain => "PLAIN"
  }

  /** The numeric value of each format in the source's enumeration. */
  function FormatCode(f: Format): int
  {
    match f
    case S3Graph => 1
    case Header => 2
    case Plain => 3
  }

  /** Recognises a format tag; `None` is the abort on an unknown tag. */
  function ParseFormat(s: string): (r: Option<Format>)
    ensures r.Some? <==> s == "S3GRAPH" || s == "HEADER" || s == "PLAIN"
    ensures r.Some? ==> FormatTag(r.value) == s
  {
    if s == "S3GRAPH" then Some(S3Graph)
    else if s == "HEADER" then Some(Header)
    else if s == "PLAIN" then Some(Plain)
    else None
  }

  /** Every format tag is recognised as its own format. */
  lemma ParseFormatTag(f: Format)
    ensures ParseFormat(FormatTag(f)) == Some(f)
  {
  }

  /** The two file writers: the S3Graph writer, and the plain writer with
      or without its two header lines. */
  datatype Writer = S3GraphWriter | PlainWriter(addHeader: bool)

  /** The writer chosen for a format code; `None` is the exit on a code
      outside the enumeration. */
  function Dispatch(code: int): (w: Option<Writer>)
    ensures w.Some? <==> 1 <= code <= 3
  {
    if code == 1 then Some(S3GraphWriter)
    else if code == 3 then Some(PlainWriter(false))
    else if code == 2 then Some(PlainWriter(true))
    else None
  }

  /** Every format reaches a writer; HEADER and PLAIN reach the same plain
      writer and differ only in whether it adds a header. */
  lemma DispatchFormat(f: Format)
    ensures Dispatch(FormatCode(f)).Some?
    ensures Dispatch(FormatCode(f)).value.PlainWriter? <==> f != S3Graph
    ensures Dispatch(FormatCode(f)).value.PlainWriter? ==>
      Dispatch(FormatCode(f)).value.addHeader == (f == Header)
  {
  }

  /** One declared output: the file, its format, and its column keys. */
  datatype OutputSpec = OutputSpec(file: string, format: Format, keys: seq<string>)

  /** The output of one OUTPUT line. The configuration parser guarantees
      at least two arguments; the keys are taken without any check. */
  function OutputFromTokens(tokens: seq<string>): (r: Option<OutputSpec>)
    requires |tokens| >= 2
    ensures r.Some? <==> ParseFormat(tokens[1]).Some?
    ensures r.Some? ==> r.value.file == tokens[0] && FormatTag(r.value.format) == tokens[1]
    ensures r.Some? ==> r.value.keys == tokens[2..]
  {
    match ParseFormat(tokens[1])
    case None => None
    case Some(f) => Some(OutputSpec(tokens[0], f, tokens[2..]))
  }

  /** No OUTPUT line after line `i` names the same file. */
  predicate LastForFile(lines: seq<seq<string>>, i: int)
    requires 0 <= i < |lines| && |lines[i]| >= 1
    requires forall j :: 0 <= j < |lines| ==> |lines[j]| >= 1
  {
    forall j :: i < j < |lines| ==> lines[j][0] != lines[i][0]
  }

  /** Builds the output table from the OUTPUT lines, keyed by file name;
      a later line for the same file replaces the earlier one. `None` is
      the abort on an unknown format tag. */
  method OutputTableInit(lines: seq<seq<string>>) returns (r: Option<map<string, OutputSpec>>)
    requires forall i :: 0 <= i < |lines| ==> |lines[i]| >= 2
    ensures r.None? <==> exists i :: 0 <= i < |lines| && ParseFormat(lines[i][1]).None?
    ensures r.Some? ==> r.value.Keys == set i | 0 <= i < |lines| :: lines[i][0]
    ensures r.Some? ==> forall i :: 0 <= i < |lines| && LastForFile(lines, i) ==>
      Some(r.value[lines[i][0]]) == OutputFromTokens(lines[i])
  {
    var table: map<string, OutputSpec> := map[];
    var i := 0;
    while i < |lines|
      invariant 0 <= i <= |lines|
      invariant forall j :: 0 <= j < i ==> ParseFormat(lines[j][1]).Some?
      invariant table.Keys == set j | 0 <= j < i :: lines[j][0]
      invariant forall j :: 0 <= j < i && (forall k :: j < k < i ==> lines[k][0] != lines[j][0]) ==>
        Some(table[lines[j][0]]) == OutputFromTokens(lines[j])
    {
      var output := OutputFromTokens(lines[i]);
      if output.None? {
        return None;
      }
      table := table[lines[i][0] := output.value];
      i := i + 1;
    }
    return Some(table);
  }

  // ---------------------------------------------------------------
  // S3Graph third header line

  /** What the third S3Graph header line shows for one column: the well or
      group name joined with the number, the number, the name, or a blank. */
  datatype Qualifier = WgNameNum(wgname: string, num: int) | NumOnly(num: int) | WgNameOnly(wgname: string) | Blank

  predicate ShowsNum(q: Qualifier) { q.WgNameNum? || q.NumOnly? }

  predicate ShowsWgName(q: Qualifier) { q.WgNameNum? || q.WgNameOnly? }

  /** The qualifier shows the number exactly when the variable needs it,
      and the well/group name exactly when the variable needs that. */
  function SelectQualifier(needNum: bool, needWgName: bool, wgname: string, num: int): (q: Qualifier)
    ensures ShowsNum(q) <==> needNum
    ensures ShowsWgName(q) <==> needWgName
    ensures ShowsNum(q) ==> q.num == num
    ensures ShowsWgName(q) ==> q.wgname == wgname
  {
    if needNum && needWgName then WgNameNum(wgname, num)
    else if needNum then NumOnly(num)
    else if needWgName then WgNameOnly(wgname)
    else Blank
  }
}
