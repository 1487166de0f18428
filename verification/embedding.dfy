/**
 * The embedding clients of tools/embedding_service.py,
 * utils/embedding_service.py and DB_LG/tools/embedding_service.py.
 *
 * All three `get_embedding` copies post the text to an embedding service in a
 * counter-driven retry loop; they differ only in which response counts as a
 * success and what is returned from it. The service's answer to each attempt
 * is an oracle indexed by the attempt number, and the one-second pauses
 * between attempts are counted, not timed. The searches are a guard, a
 * database query whose rows are an oracle, and a mapping of each row to a
 * record of named columns; every failure reads as `[]`.
 */
module Embedding {
  import opened Common

  // ---------------------------------------------------------------------------
  // The retry loop of get_embedding
  // ---------------------------------------------------------------------------

  /**
   * One HTTP response: its status and its parsed JSON body, any JSON value
   * (None when `response.json()` raises). `V` stands for the JSON values.
   */
  datatype Response<V> = Response(status: int, body: Option<V>)

  /** How get_embedding ends: a value returned, the final exception, or `None` when no attempt was made. */
  datatype Fetch<R> = Got(value: R) | GaveUp | NoAttempt

  /** The end of a call, with the number of requests sent and of pauses taken. */
  datatype Retried<R> = Retried(fetch: Fetch<R>, attempts: nat, pauses: nat)

  /**
   * The loop from attempt `k` on: the first accepted response is returned;
   * a failed attempt is followed by a pause when another attempt remains,
   * and by the exception otherwise.
   */
  function RetryFrom<V, R>(k: nat, maxRetries: int, reply: nat -> Response<V>, accept: Response<V> -> Option<R>)
    : Retried<R>
    requires k < maxRetries
    decreases maxRetries - k
  {
    var r := accept(reply(k));
    if r.Some? then Retried(Got(r.value), k + 1, k)
    else if k + 1 < maxRetries then RetryFrom(k + 1, maxRetries, reply, accept)
    else Retried(GaveUp, k + 1, k)
  }

  /** get_embedding with a given acceptance rule. */
  function Retry<V, R>(maxRetries: int, reply: nat -> Response<V>, accept: Response<V> -> Option<R>): Retried<R>
  {
    if maxRetries <= 0 then Retried(NoAttempt, 0, 0) else RetryFrom(0, maxRetries, reply, accept)
  }

  /**
   * The loop of get_embedding: `retries` counts the failed attempts; the
   * attempt number is the index into the service's answers.
   */
  method GetEmbedding<V, R>(maxRetries: int, reply: nat -> Response<V>, accept: Response<V> -> Option<R>)
    returns (result: Retried<R>)
    ensures result == Retry(maxRetries, reply, accept)
  {
    var retries := 0;
    var pauses := 0;
    while retries < maxRetries
      invariant retries == 0 || retries < maxRetries
      invariant pauses == retries
      invariant retries < maxRetries ==> Retry(maxRetries, reply, accept) == RetryFrom(retries, maxRetries, reply, accept)
      decreases maxRetries - retries
    {
      var accepted := accept(reply(retries));
      if accepted.Some? {
        return Retried(Got(accepted.value), retries + 1, pauses);
      }
      retries := retries + 1;
      if retries < maxRetries {
        pauses := pauses + 1;
      } else {
        return Retried(GaveUp, retries, pauses);
      }
    }
    result := Retried(NoAttempt, 0, 0);
  }

  /** Every attempt before `n` was rejected. */
  ghost predicate RejectedBefore<V, R>(n: nat, reply: nat -> Response<V>, accept: Response<V> -> Option<R>) {
    forall k :: 0 <= k < n ==> accept(reply(k)).None?
  }

  lemma {:induction false} RetryFromSpec<V, R>(k: nat, maxRetries: int, reply: nat -> Response<V>,
                                               accept: Response<V> -> Option<R>)
    requires k < maxRetries
    requires RejectedBefore(k, reply, accept)
    ensures var o := RetryFrom(k, maxRetries, reply, accept);
            && k < o.attempts <= maxRetries
            && o.pauses == o.attempts - 1
            && RejectedBefore(o.attempts - 1, reply, accept)
            && !o.fetch.NoAttempt?
            && (o.fetch.Got? ==> accept(reply(o.attempts - 1)) == Some(o.fetch.value))
            && (o.fetch.GaveUp? ==> o.attempts == maxRetries && accept(reply(o.attempts - 1)).None?)
    decreases maxRetries - k
  {
    if accept(reply(k)).None? && k + 1 < maxRetries {
      RetryFromSpec(k + 1, maxRetries, reply, accept);
    }
  }

  /**
   * At most `max_retries` requests are sent and there is one pause fewer
   * than requests. The value returned comes from the first accepted
   * response; the exception is raised only after `max_retries` rejected
   * responses; with `max_retries <= 0` nothing is sent and None is returned.
   */
  lemma RetrySpec<V, R>(maxRetries: int, reply: nat -> Response<V>, accept: Response<V> -> Option<R>)
    ensures var o := Retry(maxRetries, reply, accept);
            && (maxRetries <= 0 <==> o.fetch.NoAttempt?)
            && (maxRetries <= 0 ==> o.attempts == 0 && o.pauses == 0)
            && (maxRetries > 0 ==> 1 <= o.attempts <= maxRetries && o.pauses == o.attempts - 1)
            && (o.fetch.Got? ==> accept(reply(o.attempts - 1)) == Some(o.fetch.value)
                                 && RejectedBefore(o.attempts - 1, reply, accept))
            && (o.fetch.GaveUp? <==> maxRetries > 0 && RejectedBefore(maxRetries, reply, accept))
            && (o.fetch.GaveUp? ==> o.attempts == maxRetries && o.pauses == maxRetries - 1)
  {
    if maxRetries > 0 {
      RetryFromSpec(0, maxRetries, reply, accept);
      var o := Retry(maxRetries, reply, accept);
      if o.fetch.GaveUp? {
        assert RejectedBefore(maxRetries, reply, accept) by {
          forall k | 0 <= k < maxRetries
            ensures accept(reply(k)).None?
          {
            if k < o.attempts - 1 {
              assert RejectedBefore(o.attempts - 1, reply, accept);
            }
          }
        }
      }
    }
  }

  /**
   * Reading `field` out of a JSON value: the value under that key of an
   * object, None for an object without the key and for a value that is not
   * an object (where `in` or the subscript raises, or finds no such key).
   */
  type Lookup<!V> = (V, string) -> Option<V>

  /** A 200 response whose body has `field`: the value of that field. */
  function FieldOf<V>(lookup: Lookup<V>, field: string): Response<V> -> Option<V>
  {
    (resp: Response<V>) =>
      if resp.status == 200 && resp.body.Some? then lookup(resp.body.value, field) else None
  }

  /** A 200 response whose body parses: the whole body, whatever JSON value it is. */
  function WholeBody<V>(resp: Response<V>): Option<V>
  {
    if resp.status == 200 && resp.body.Some? then resp.body else None
  }

  /** get_embedding of tools/embedding_service.py: the `sentence` field. */
  method ToolsGetEmbedding<V>(maxRetries: int, reply: nat -> Response<V>, lookup: Lookup<V>) returns (result: Retried<V>)
    ensures result == Retry(maxRetries, reply, FieldOf(lookup, "sentence"))
  {
    result := GetEmbedding(maxRetries, reply, FieldOf(lookup, "sentence"));
  }

  /** get_embedding of utils/embedding_service.py: the `embedding` field. */
  method UtilsGetEmbedding<V>(maxRetries: int, reply: nat -> Response<V>, lookup: Lookup<V>) returns (result: Retried<V>)
    ensures result == Retry(maxRetries, reply, FieldOf(lookup, "embedding"))
  {
    result := GetEmbedding(maxRetries, reply, FieldOf(lookup, "embedding"));
  }

  /** get_embedding of DB_LG/tools/embedding_service.py: the whole body. */
  method LgGetEmbedding<V>(maxRetries: int, reply: nat -> Response<V>) returns (result: Retried<V>)
    ensures result == Retry(maxRetries, reply, WholeBody)
  {
    result := GetEmbedding(maxRetries, reply, WholeBody);
  }

  /**
   * What each copy accepts: a field copy accepts a response exactly when it
   * is a 200 whose body has that field; the whole-body copy accepts every 200
   * whose body parses, be it an object, a list or null, so a 200 without the
   * field succeeds there and fails in the other two.
   */
  lemma AcceptanceCompared<V>(resp: Response<V>, lookup: Lookup<V>)
    ensures FieldOf(lookup, "sentence")(resp).Some? <==>
              resp.status == 200 && resp.body.Some? && lookup(resp.body.value, "sentence").Some?
    ensures FieldOf(lookup, "embedding")(resp).Some? <==>
              resp.status == 200 && resp.body.Some? && lookup(resp.body.value, "embedding").Some?
    ensures WholeBody(resp).Some? <==> resp.status == 200 && resp.body.Some?
    ensures WholeBody(resp).Some? ==> WholeBody(resp) == resp.body
    ensures FieldOf(lookup, "sentence")(resp).Some? ==> WholeBody(resp).Some?
    ensures resp.status != 200 ==> FieldOf(lookup, "sentence")(resp).None? && WholeBody(resp).None?
  {
  }

  /**
   * The whole-body copy returns the first 200 whose body parses, after one
   * attempt when that is the first reply, whatever JSON value the body is.
   */
  lemma WholeBodyFirstReply<V>(maxRetries: int, reply: nat -> Response<V>)
    requires maxRetries > 0 && reply(0).status == 200 && reply(0).body.Some?
    ensures Retry(maxRetries, reply, WholeBody) == Retried(Got(reply(0).body.value), 1, 0)
  {
  }

  /** The field copies return the field itself, never the body around it. */
  lemma FieldReturned<V>(maxRetries: int, reply: nat -> Response<V>, lookup: Lookup<V>, field: string)
    ensures var o := Retry(maxRetries, reply, FieldOf(lookup, field));
            o.fetch.Got? ==>
              (o.attempts >= 1
               && var resp := reply(o.attempts - 1);
                  resp.status == 200 && resp.body.Some?
                  && lookup(resp.body.value, field) == Some(o.fetch.value))
  {
    RetrySpec(maxRetries, reply, FieldOf(lookup, field));
  }

  // ---------------------------------------------------------------------------
  // The searches
  // ---------------------------------------------------------------------------

  /** A row as the cursor returns it: its columns by position. */
  type Row<C> = seq<C>

  /** A result record: the columns by name, in the order of the dict literal. */
  type Record<C> = seq<(string, C)>

  /**
   * The records of a list comprehension over rows: each row's columns named
   * in order; None when a row is too short, so that `row[i]` raises.
   */
  function MapRows<C>(names: seq<string>, rows: seq<Row<C>>): (r: Option<seq<Record<C>>>)
    ensures r.Some? <==> forall i :: 0 <= i < |rows| ==> |rows[i]| >= |names|
    ensures r.Some? ==> |r.value| == |rows|
    ensures r.Some? ==> forall i :: 0 <= i < |rows| ==>
              |r.value[i]| == |names| && forall k :: 0 <= k < |names| ==> r.value[i][k] == (names[k], rows[i][k])
    decreases |rows|
  {
    if rows == [] then Some([])
    else
      var init := MapRows(names, rows[..|rows| - 1]);
      var last := rows[|rows| - 1];
      if init.None? || |last| < |names| then None
      else Some(init.value + [seq(|names|, k requires 0 <= k < |names| => (names[k], last[k]))])
  }

  /** The five columns of tools/embedding_service.py search_similar. */
  const LawColumns: seq<string> := ["law_id", "law_name", "chapter", "article_content", "similarity"]

  /** The nine columns of utils/embedding_service.py search_similar. */
  const LawColumnsWithReferences: seq<string> :=
    ["law_id", "law_name", "chapter", "article_content", "referenced_article_1", "referenced_article_content_1",
     "referenced_article_2", "referenced_article_content_2", "similarity"]

  /** The three columns of lg_search_kb_by_chat. */
  const KbColumns: seq<string> := ["title", "content", "similarity"]

  /** `LIMIT n`: the first `n` rows; a negative limit is an error. */
  function Limit<C>(rows: seq<Row<C>>, n: int): (r: Option<seq<Row<C>>>)
    ensures n < 0 <==> r.None?
    ensures r.Some? ==> r.value == rows[..if n < |rows| then n else |rows|]
  {
    if n < 0 then None else Some(rows[..if n < |rows| then n else |rows|])
  }

  /**
   * search_similar: the procedure's rows (None when the connection or the
   * query fails), limited to `top_k`, mapped to records; every failure is `[]`.
   */
  function SearchSimilar<C>(names: seq<string>, procedureRows: Option<seq<Row<C>>>, topK: int): (r: seq<Record<C>>)
  {
    if procedureRows.None? then []
    else
      var limited := Limit(procedureRows.value, topK);
      if limited.None? then []
      else
        var records := MapRows(names, limited.value);
        if records.None? then [] else records.value
  }

  /**
   * Each record of search_similar names the columns of one row, in row
   * order and column order, for at most `top_k` rows; any failure gives `[]`.
   */
  lemma SearchSimilarSpec<C>(names: seq<string>, procedureRows: Option<seq<Row<C>>>, topK: int)
    ensures var r := SearchSimilar(names, procedureRows, topK);
            && (procedureRows.None? || topK < 0 ==> r == [])
            && (topK >= 0 ==> |r| <= topK)
            && (procedureRows.Some? && topK >= 0 ==>
                  var rows := procedureRows.value;
                  var n := if topK < |rows| then topK else |rows|;
                  && (forall i :: 0 <= i < n ==> |rows[i]| >= |names|) ==>
                     && |r| == n
                     && forall i, k :: 0 <= i < n && 0 <= k < |names| ==> r[i][k] == (names[k], rows[i][k]))
  {
  }

  /** The column names of a record, in order. */
  function Names<C>(rec: Record<C>): seq<string> {
    seq(|rec|, k requires 0 <= k < |rec| => rec[k].0)
  }

  /** Every record of a search names its columns by `names`, in order. */
  lemma SearchSimilarNames<C>(names: seq<string>, procedureRows: Option<seq<Row<C>>>, topK: int)
    ensures var r := SearchSimilar(names, procedureRows, topK);
            forall i :: 0 <= i < |r| ==> Names(r[i]) == names
  {
    var r := SearchSimilar(names, procedureRows, topK);
    forall i | 0 <= i < |r|
      ensures Names(r[i]) == names
    {
      var rows := Limit(procedureRows.value, topK).value;
      assert |r[i]| == |names| && forall k :: 0 <= k < |names| ==> r[i][k] == (names[k], rows[i][k]);
    }
  }

  /** search_similar of tools/embedding_service.py: five named columns per row. */
  function ToolsSearchSimilar<C>(procedureRows: Option<seq<Row<C>>>, topK: int): (r: seq<Record<C>>)
    ensures forall i :: 0 <= i < |r| ==> Names(r[i]) == LawColumns
    ensures topK >= 0 ==> |r| <= topK
  {
    SearchSimilarNames(LawColumns, procedureRows, topK);
    SearchSimilarSpec(LawColumns, procedureRows, topK);
    SearchSimilar(LawColumns, procedureRows, topK)
  }

  /** search_similar of utils/embedding_service.py: nine named columns per row, references included. */
  function UtilsSearchSimilar<C>(procedureRows: Option<seq<Row<C>>>, topK: int): (r: seq<Record<C>>)
    ensures forall i :: 0 <= i < |r| ==> Names(r[i]) == LawColumnsWithReferences
    ensures topK >= 0 ==> |r| <= topK
  {
    SearchSimilarNames(LawColumnsWithReferences, procedureRows, topK);
    SearchSimilarSpec(LawColumnsWithReferences, procedureRows, topK);
    SearchSimilar(LawColumnsWithReferences, procedureRows, topK)
  }

  /** The embedding argument as a Python value: a list, or something else with its truthiness. */
  datatype Argument<V> = ListArg(items: seq<V>) | OtherArg(truthy: bool)

  /** What a knowledge-base search did: whether it reached the database, and its records. */
  datatype Searched<C> = Searched(queried: bool, records: seq<Record<C>>)

  /**
   * lg_search_kb_by_chat: an empty or non-list embedding is refused before
   * any connection; otherwise the rows of the query (None when connecting or
   * querying fails) are mapped; no rows and every failure give `[]`.
   */
  function SearchKb<V, C>(embedding: Argument<V>, queryRows: Option<seq<Row<C>>>): (r: Searched<C>)
  {
    if !embedding.ListArg? || embedding.items == [] then Searched(false, [])
    else if queryRows.None? || queryRows.value == [] then Searched(true, [])
    else
      var records := MapRows(KbColumns, queryRows.value);
      Searched(true, if records.None? then [] else records.value)
  }

  lemma SearchKbSpec<V, C>(embedding: Argument<V>, queryRows: Option<seq<Row<C>>>)
    ensures var r := SearchKb(embedding, queryRows);
            && (r.queried <==> embedding.ListArg? && embedding.items != [])
            && (!r.queried ==> r.records == [])
            && (queryRows.None? ==> r.records == [])
            && (r.queried && queryRows.Some? && (forall i :: 0 <= i < |queryRows.value| ==> |queryRows.value[i]| >= 3) ==>
                  && |r.records| == |queryRows.value|
                  && forall i :: 0 <= i < |r.records| ==>
                       r.records[i] == [("title", queryRows.value[i][0]), ("content", queryRows.value[i][1]),
                                        ("similarity", queryRows.value[i][2])])
  {
    var r := SearchKb(embedding, queryRows);
    if r.queried && queryRows.Some? && queryRows.value != [] && (forall i :: 0 <= i < |queryRows.value| ==> |queryRows.value[i]| >= 3) {
      forall i | 0 <= i < |r.records|
        ensures r.records[i] == [("title", queryRows.value[i][0]), ("content", queryRows.value[i][1]),
                                 ("similarity", queryRows.value[i][2])]
      {
        assert |r.records[i]| == 3;
        assert r.records[i][0] == ("title", queryRows.value[i][0]);
        assert r.records[i][1] == ("content", queryRows.value[i][1]);
        assert r.records[i][2] == ("similarity", queryRows.value[i][2]);
      }
    }
  }
}
