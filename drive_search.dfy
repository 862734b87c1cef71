/**
 * The search over the shared drive: one query per search string, and the
 * list of "id#name" entries of every file the successful queries return.
 * The remote call is an input: responses[i] is what the query for
 * searchStrings[i] returned, None when it failed.
 */
module DriveSearch {
  import opened Wrappers
  import opened Text
  import opened Seqs

  datatype DriveFile = DriveFile(id: string, name: string)

  /** The search query for one search string: a name substring and the PNG MIME type. */
  function Query(searchString: string): (q: string)
    ensures |q| == |searchString| + 43
    ensures q[15..|q| - 28] == searchString
  {
    "name contains '" + searchString + "' and mimeType = 'image/png'"
  }

  /** Different search strings give different queries. */
  lemma QueryInjective(a: string, b: string)
    requires Query(a) == Query(b)
    ensures a == b
  {
  }

  /** The result entry for one returned file. */
  function Entry(f: DriveFile): string
  {
    f.id + "#" + f.name
  }

  /** The id is what precedes the first '#' of the entry, when the id has no '#'. */
  lemma EntryFileId(f: DriveFile)
    requires '#' !in f.id
    ensures FieldBefore(Entry(f), '#') == f.id
  {
    FieldBeforeJoin(f.id, '#', f.name);
  }

  function EntryChunk(f: DriveFile): seq<string>
  {
    [Entry(f)]
  }

  /** The entries of a list of returned files. */
  function Entries(files: seq<DriveFile>): seq<string>
  {
    ConcatMap(EntryChunk, files)
  }

  /** The entries one response contributes: none for a failed query. */
  function Contribution(response: Option<seq<DriveFile>>): seq<string>
  {
    match response
    case None => []
    case Some(files) => Entries(files)
  }

  /** The result list: the contributions of the responses, in search order. */
  function Located(responses: seq<Option<seq<DriveFile>>>): seq<string>
  {
    ConcatMap(Contribution, responses)
  }

  /**
   * The search loop: for each search string the query is sent, a failed
   * query is skipped, and each returned file appends its entry.
   */
  method SearchFilesOnDrive(searchStrings: seq<string>, responses: seq<Option<seq<DriveFile>>>)
    returns (queries: seq<string>, results: seq<string>)
    requires |responses| == |searchStrings|
    ensures |queries| == |searchStrings|
    ensures forall i :: 0 <= i < |searchStrings| ==> queries[i] == Query(searchStrings[i])
    ensures results == Located(responses)
  {
    queries, results := [], [];
    for n := 0 to |searchStrings|
      invariant |queries| == n
      invariant forall i :: 0 <= i < n ==> queries[i] == Query(searchStrings[i])
      invariant results == Located(responses[..n])
    {
      ConcatMapPrefix(Contribution, responses, n);
      var query := Query(searchStrings[n]);
      queries := queries + [query];
      var r := responses[n];
      if r.None? {
        continue;
      }
      var files := r.value;
      if |files| > 0 {
        ghost var before := results;
        for i := 0 to |files|
          invariant results == before + Entries(files[..i])
        {
          ConcatMapPrefix(EntryChunk, files, i);
          ConcatAssoc(before, Entries(files[..i]), [Entry(files[i])]);
          results := results + [Entry(files[i])];
        }
        assert files[..|files|] == files;
      }
    }
    assert responses[..|responses|] == responses;
  }

  /** One entry per returned file, in the order the files were returned. */
  lemma {:induction false} EntriesShape(files: seq<DriveFile>)
    ensures |Entries(files)| == |files|
    ensures forall k :: 0 <= k < |files| ==> Entries(files)[k] == Entry(files[k])
    decreases |files|
  {
    if files != [] {
      var init := files[..|files| - 1];
      ConcatMapPrefix(EntryChunk, files, |files| - 1);
      assert files[..|files|] == files;
      EntriesShape(init);
    }
  }

  /** Searching a + b lists a's results, then b's. */
  lemma LocatedAppend(a: seq<Option<seq<DriveFile>>>, b: seq<Option<seq<DriveFile>>>)
    ensures Located(a + b) == Located(a) + Located(b)
  {
    ConcatMapAppend(Contribution, a, b);
  }

  /** A failed query and a query with no match both leave the results as they are. */
  lemma EmptyResponseSkipped(a: seq<Option<seq<DriveFile>>>, b: seq<Option<seq<DriveFile>>>)
    ensures Located(a + [None] + b) == Located(a + b)
    ensures Located(a + [Some([])] + b) == Located(a + b)
  {
    ConcatMapSplit(Contribution, a, None, b);
    ConcatMapSplit(Contribution, a, Some([]), b);
    ConcatMapAppend(Contribution, a, b);
  }

  /** Number of files returned by the successful queries. */
  function MatchCount(responses: seq<Option<seq<DriveFile>>>): nat
  {
    if responses == [] then 0
    else (match responses[0] case None => 0 case Some(files) => |files|) + MatchCount(responses[1..])
  }

  /** One entry per file returned by a successful query. */
  lemma {:induction false} LocatedCount(responses: seq<Option<seq<DriveFile>>>)
    ensures |Located(responses)| == MatchCount(responses)
    decreases |responses|
  {
    if responses != [] {
      assert [responses[0]] + responses[1..] == responses;
      ConcatMapAppend(Contribution, [responses[0]], responses[1..]);
      ConcatMapSingle(Contribution, responses[0]);
      if responses[0].Some? {
        EntriesShape(responses[0].value);
      }
      LocatedCount(responses[1..]);
    }
  }

  /**
   * The k-th file returned for search j is listed right after everything
   * the searches before j contributed.
   */
  lemma LocatedAt(responses: seq<Option<seq<DriveFile>>>, j: nat, k: nat)
    requires j < |responses| && responses[j].Some? && k < |responses[j].value|
    ensures |Located(responses[..j])| + k < |Located(responses)|
    ensures Located(responses)[|Located(responses[..j])| + k] == Entry(responses[j].value[k])
  {
    EntriesShape(responses[j].value);
    ConcatMapAt(Contribution, responses, j, k);
  }
}
