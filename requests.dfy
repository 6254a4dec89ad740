/** What the client sends to the BLAST URL API: the supported programs, the
    PROGRAM value actually transmitted, the submission form and the two GET
    URLs (functions/__main__.js). */
module Requests {
  import opened Wrappers
  import opened Text

  /** Base address of the BLAST URL API. */
  const API_ROOT: string := "https://blast.ncbi.nlm.nih.gov/blast/Blast.cgi"

  /** The programs the client accepts, in the order it lists them. */
  const SUPPORTED_PROGRAMS: seq<string> := ["blastn", "megablast", "blastp", "blastx", "tblastn", "tblastx"]

  const MEGABLAST_ALIAS: string := "megablast"
  /** What is transmitted in place of the `megablast` alias: `blastp` with the
      `MEGABLAST=on` flag appended to the same field. */
  const MEGABLAST_PROGRAM: string := "blastp&MEGABLAST=on"

  const UNSUPPORTED_SUFFIX: string := " is not a supported BLAST algorithm"

  /** `[...].includes(program)`. */
  predicate IsSupported(program: string) {
    program in SUPPORTED_PROGRAMS
  }

  /** The error the client delivers for a program it does not accept, or
      nothing when the program is accepted. */
  function CheckProgram(program: string): (e: Option<string>)
    ensures e.None? <==> program == "blastn" || program == "megablast" || program == "blastp"
                         || program == "blastx" || program == "tblastn" || program == "tblastx"
    ensures e.Some? ==> program <= e.value && Contains(e.value, program)
  {
    if IsSupported(program) then None
    else
      assert OccursAt(program + UNSUPPORTED_SUFFIX, program, 0);
      Some(program + UNSUPPORTED_SUFFIX)
  }

  /** The PROGRAM value put on the wire for the requested program. */
  function TransmittedProgram(program: string): string {
    if program == MEGABLAST_ALIAS then MEGABLAST_PROGRAM else program
  }

  /** Only the alias is rewritten: any program other than `megablast`, accepted
      or not, goes out unchanged, and `megablast` goes out as `blastp` followed
      by the `MEGABLAST=on` flag. An accepted program other than the alias
      stays an accepted program. */
  lemma TransmittedProgramRewritesOnlyAlias(program: string)
    ensures program == MEGABLAST_ALIAS ==> TransmittedProgram(program) == "blastp" + "&MEGABLAST=on"
    ensures program != MEGABLAST_ALIAS ==> TransmittedProgram(program) == program
    ensures IsSupported(program) && program != MEGABLAST_ALIAS ==> IsSupported(TransmittedProgram(program))
  {
  }

  /** The rewrite never makes two accepted programs indistinguishable on the
      wire, and it never transmits the alias itself. */
  lemma {:induction false} TransmittedProgramInjective(p1: string, p2: string)
    requires IsSupported(p1) && IsSupported(p2)
    ensures TransmittedProgram(p1) == TransmittedProgram(p2) ==> p1 == p2
    ensures TransmittedProgram(p1) != MEGABLAST_ALIAS
  {
    if p1 != MEGABLAST_ALIAS && p2 == MEGABLAST_ALIAS {
      assert |p1| <= 9 < |MEGABLAST_PROGRAM|;
    } else if p1 == MEGABLAST_ALIAS && p2 != MEGABLAST_ALIAS {
      assert |p2| <= 9 < |MEGABLAST_PROGRAM|;
    }
  }

  /** A form field value: plain text, or `encodeURIComponent(raw)`, which is
      kept symbolic. */
  datatype FieldValue = Plain(text: string) | UriComponent(raw: string)

  datatype Field = Field(name: string, value: FieldValue)

  /** The value of the first field named `name`. */
  function FieldNamed(form: seq<Field>, name: string): (v: Option<FieldValue>)
    ensures v.Some? <==> exists i :: 0 <= i < |form| && form[i].name == name
    ensures v.Some? ==> exists i :: 0 <= i < |form| && form[i] == Field(name, v.value)
  {
    if form == [] then None
    else if form[0].name == name then Some(form[0].value)
    else
      var rest := FieldNamed(form[1..], name);
      assert forall i :: 1 <= i < |form| ==> form[i] == form[1..][i - 1];
      rest
  }

  /** The body of the submission POST. */
  function SubmitForm(program: string, database: string, query: string): seq<Field> {
    [ Field("CMD", Plain("Put")),
      Field("PROGRAM", Plain(TransmittedProgram(program))),
      Field("DATABASE", Plain(database)),
      Field("QUERY", UriComponent(query)) ]
  }

  /** The submission form has the four fields CMD, PROGRAM, DATABASE and QUERY
      and nothing else; CMD is `Put`, PROGRAM is the transmitted program,
      DATABASE is passed through and QUERY is the percent-encoded query. */
  lemma SubmitFormFields(program: string, database: string, query: string)
    ensures var f := SubmitForm(program, database, query);
      && |f| == 4
      && (forall i :: 0 <= i < |f| ==> f[i].name in {"CMD", "PROGRAM", "DATABASE", "QUERY"})
      && FieldNamed(f, "CMD") == Some(Plain("Put"))
      && FieldNamed(f, "PROGRAM") == Some(Plain(TransmittedProgram(program)))
      && FieldNamed(f, "DATABASE") == Some(Plain(database))
      && FieldNamed(f, "QUERY") == Some(UriComponent(query))
  {
    var f := SubmitForm(program, database, query);
    assert FieldNamed(f[3..], "QUERY") == Some(UriComponent(query));
    assert FieldNamed(f[2..], "DATABASE") == Some(Plain(database));
    assert FieldNamed(f[2..], "QUERY") == FieldNamed(f[3..], "QUERY");
    assert FieldNamed(f[1..], "DATABASE") == FieldNamed(f[2..], "DATABASE");
    assert FieldNamed(f[1..], "QUERY") == FieldNamed(f[2..], "QUERY");
  }

  const STATUS_QUERY: string := "?&CMD=Get&FORMAT_OBJECT=SearchInfo&RID="
  const FETCH_QUERY: string := "?CMD=Get&FORMAT_TYPE=XML&RID="

  /** URL of the status check for job `rid`. */
  function StatusUrl(rid: string): string {
    API_ROOT + STATUS_QUERY + rid
  }

  /** URL of the XML result fetch for job `rid`. */
  function FetchUrl(rid: string): string {
    API_ROOT + FETCH_QUERY + rid
  }

  /** The job id a status URL asks about, if `url` is one. */
  function StatusRid(url: string): (rid: Option<string>)
    ensures rid.Some? ==> StatusUrl(rid.value) == url
  {
    var prefix := API_ROOT + STATUS_QUERY;
    if prefix <= url then
      assert url == prefix + url[|prefix|..];
      Some(url[|prefix|..])
    else None
  }

  /** The job id a fetch URL asks about, if `url` is one. */
  function FetchRid(url: string): (rid: Option<string>)
    ensures rid.Some? ==> FetchUrl(rid.value) == url
  {
    var prefix := API_ROOT + FETCH_QUERY;
    if prefix <= url then
      assert url == prefix + url[|prefix|..];
      Some(url[|prefix|..])
    else None
  }

  /** Both URLs carry the job id verbatim at their end: it can be read back. */
  lemma {:induction false} UrlsCarryRid(rid: string)
    ensures StatusRid(StatusUrl(rid)) == Some(rid)
    ensures FetchRid(FetchUrl(rid)) == Some(rid)
  {
    var sp := API_ROOT + STATUS_QUERY;
    var fp := API_ROOT + FETCH_QUERY;
    assert StatusUrl(rid) == sp + rid;
    assert sp <= StatusUrl(rid);
    assert StatusUrl(rid)[|sp|..] == rid;
    assert FetchUrl(rid) == fp + rid;
    assert fp <= FetchUrl(rid);
    assert FetchUrl(rid)[|fp|..] == rid;
  }

  /** A status check can never be mistaken for a result fetch, whatever the
      two job ids: the URLs differ just after the API root. */
  lemma {:induction false} StatusAndFetchUrlsDiffer(r1: string, r2: string)
    ensures StatusUrl(r1) != FetchUrl(r2)
    ensures FetchRid(StatusUrl(r1)).None? && StatusRid(FetchUrl(r2)).None?
  {
    var n := |API_ROOT|;
    assert StatusUrl(r1)[n + 1] == '&';
    assert FetchUrl(r2)[n + 1] == 'C';
    assert (API_ROOT + STATUS_QUERY)[n + 1] == '&';
    assert (API_ROOT + FETCH_QUERY)[n + 1] == 'C';
  }
}
