/**
 * The download loop: each result entry is cut at its first '#' to get the
 * file id, and the file is saved under a name made from the search key at
 * the same position and the position's sequence number. The download
 * itself is an input: downloaded[i] says whether the i-th call succeeded.
 */
module Downloads {
  import opened Wrappers
  import opened Text
  import opened Seqs
  import opened DriveSearch

  /** One call of the download routine: which file, saved where. */
  datatype Download = Download(fileId: string, savePath: string)

  /** The file id of a result entry: everything before its first '#'. */
  function FileIdOf(result: string): string
  {
    FieldBefore(result, '#')
  }

  /** The key as it appears in a file name: every ':' removed. */
  function SanitizedKey(key: string): string
  {
    RemoveAll(key, ':')
  }

  /** The save path for the i-th download (0-based); its sequence number is i + 1. */
  function OutputName(key: string, i: nat): (path: string)
    ensures ':' !in path
  {
    DecimalHasNoSeparators(i + 1);
    ".\\Pictures\\" + SanitizedKey(key) + "---" + Decimal(i + 1) + ".png"
  }

  /**
   * Different positions get different paths, whatever their keys: the
   * sequence number sits between the last '-' and ".png".
   */
  lemma OutputNameDistinct(k1: string, i: nat, k2: string, j: nat)
    requires i != j
    ensures OutputName(k1, i) != OutputName(k2, j)
  {
    var a1, d1 := ".\\Pictures\\" + SanitizedKey(k1) + "--", Decimal(i + 1);
    var a2, d2 := ".\\Pictures\\" + SanitizedKey(k2) + "--", Decimal(j + 1);
    assert OutputName(k1, i) == (a1 + ['-'] + d1) + ".png";
    assert OutputName(k2, j) == (a2 + ['-'] + d2) + ".png";
    DecimalShape(i + 1);
    DecimalShape(j + 1);
    assert '-' !in d1 && '-' !in d2;
    if OutputName(k1, i) == OutputName(k2, j) {
      var p := OutputName(k1, i);
      assert p[..|p| - 4] == a1 + ['-'] + d1;
      assert p[..|p| - 4] == a2 + ['-'] + d2;
      LastFieldUnique(a1, d1, a2, d2, '-');
      DecimalInjective(i + 1, j + 1);
    }
  }

  /** The downloads the loop asks for: result i with the key at position i. */
  function DownloadCalls(results: seq<string>, orderSku: seq<string>): (calls: seq<Download>)
    requires |results| <= |orderSku|
  {
    seq(|results|, i requires 0 <= i < |results| => Download(FileIdOf(results[i]), OutputName(orderSku[i], i)))
  }

  /** The log line written when a download fails. */
  function FailureMessage(key: string): string
  {
    "\n-------\nCould not download file with name: " + key + "\n-------"
  }

  /** The log lines for the failed downloads among the first n. */
  function FailureLog(orderSku: seq<string>, downloaded: seq<bool>, n: nat): seq<string>
    requires n <= |downloaded| && n <= |orderSku|
  {
    if n == 0 then []
    else FailureLog(orderSku, downloaded, n - 1) + (if downloaded[n - 1] then [] else [FailureMessage(orderSku[n - 1])])
  }

  /**
   * The download loop: one call per result entry, in order; a failed call
   * is logged and the loop goes on.
   */
  method DownloadAll(results: seq<string>, orderSku: seq<string>, downloaded: seq<bool>)
    returns (calls: seq<Download>, log: seq<string>)
    requires |results| <= |orderSku|
    requires |downloaded| == |results|
    ensures calls == DownloadCalls(results, orderSku)
    ensures log == FailureLog(orderSku, downloaded, |results|)
  {
    calls, log := [], [];
    for i := 0 to |results|
      invariant calls == DownloadCalls(results[..i], orderSku)
      invariant log == FailureLog(orderSku, downloaded, i)
    {
      var id := FileIdOf(results[i]);
      DownloadCallsStep(results, orderSku, i);
      calls := calls + [Download(id, OutputName(orderSku[i], i))];
      if !downloaded[i] {
        log := log + [FailureMessage(orderSku[i])];
      }
    }
    assert results[..|results|] == results;
  }

  /** One more result appends one more download. */
  lemma DownloadCallsStep(results: seq<string>, orderSku: seq<string>, i: nat)
    requires i < |results| <= |orderSku|
    ensures DownloadCalls(results[..i + 1], orderSku)
         == DownloadCalls(results[..i], orderSku) + [Download(FileIdOf(results[i]), OutputName(orderSku[i], i))]
  {
  }

  /** No two downloads of one run share a save path. */
  lemma DownloadPathsDistinct(results: seq<string>, orderSku: seq<string>, i: nat, j: nat)
    requires |results| <= |orderSku|
    requires i < |results| && j < |results| && i != j
    ensures DownloadCalls(results, orderSku)[i].savePath != DownloadCalls(results, orderSku)[j].savePath
  {
    OutputNameDistinct(orderSku[i], i, orderSku[j], j);
  }

  /**
   * When every search returns exactly one file, results and keys line up:
   * the i-th download fetches the file found for the i-th key and is named
   * after that key.
   */
  lemma AlignedWhenOneMatchEach(orderSku: seq<string>, files: seq<DriveFile>)
    requires |files| <= |orderSku|
    requires forall i :: 0 <= i < |files| ==> '#' !in files[i].id
    ensures var results := Located(seq(|files|, i requires 0 <= i < |files| => Some([files[i]])));
      |results| == |files| &&
      forall i :: 0 <= i < |files| ==>
        DownloadCalls(results, orderSku)[i] == Download(files[i].id, OutputName(orderSku[i], i))
  {
    var responses := seq(|files|, i requires 0 <= i < |files| => Some([files[i]]));
    LocatedCount(responses);
    OneMatchEachCount(responses);
    var results := Located(responses);
    forall i | 0 <= i < |files|
      ensures results[i] == Entry(files[i])
    {
      OneMatchEachCount(responses[..i]);
      LocatedAt(responses, i, 0);
      EntryFileId(files[i]);
    }
    forall i | 0 <= i < |files|
      ensures FileIdOf(results[i]) == files[i].id
    {
      EntryFileId(files[i]);
    }
  }

  lemma {:induction false} OneMatchEachCount(responses: seq<Option<seq<DriveFile>>>)
    requires forall i :: 0 <= i < |responses| ==> responses[i].Some? && |responses[i].value| == 1
    ensures MatchCount(responses) == |responses|
    ensures |Located(responses)| == |responses|
    decreases |responses|
  {
    LocatedCount(responses);
    if responses != [] {
      OneMatchEachCount(responses[1..]);
    }
  }

  /**
   * A key with no match shifts the next key's file onto its own name: when
   * the keys before position j found one file each, key j found none and
   * key j + 1 found f, the j-th download fetches f under key j's name.
   */
  lemma ZeroMatchMisnames(orderSku: seq<string>, responses: seq<Option<seq<DriveFile>>>, j: nat, f: DriveFile)
    requires j + 1 < |responses| && MatchCount(responses) <= |orderSku|
    requires forall i :: 0 <= i < j ==> responses[i].Some? && |responses[i].value| == 1
    requires responses[j] == Some([]) && responses[j + 1] == Some([f]) && '#' !in f.id
    ensures j < |Located(responses)| <= |orderSku|
    ensures DownloadCalls(Located(responses), orderSku)[j] == Download(f.id, OutputName(orderSku[j], j))
  {
    LocatedCount(responses);
    OneMatchEachCount(responses[..j]);
    assert Located(responses[..j + 1]) == Located(responses[..j]) by {
      ConcatMapPrefix(Contribution, responses, j);
      assert Contribution(responses[j]) == [];
    }
    LocatedAt(responses, j + 1, 0);
    EntryFileId(f);
  }

  /**
   * The failure log holds exactly one message per failed download among
   * the first n, in the order of the downloads: idx lists their positions.
   */
  lemma {:induction false} FailureLogEntries(orderSku: seq<string>, downloaded: seq<bool>, n: nat) returns (idx: seq<nat>)
    requires n <= |downloaded| && n <= |orderSku|
    ensures |idx| == |FailureLog(orderSku, downloaded, n)|
    ensures forall k :: 0 <= k < |idx| ==>
      idx[k] < n && !downloaded[idx[k]] && FailureLog(orderSku, downloaded, n)[k] == FailureMessage(orderSku[idx[k]])
    ensures forall k, l :: 0 <= k < l < |idx| ==> idx[k] < idx[l]
    ensures forall i :: 0 <= i < n && !downloaded[i] ==> i in idx
    decreases n
  {
    if n == 0 {
      idx := [];
    } else {
      var prev := FailureLogEntries(orderSku, downloaded, n - 1);
      var log := FailureLog(orderSku, downloaded, n - 1);
      if downloaded[n - 1] {
        assert FailureLog(orderSku, downloaded, n) == log;
        idx := prev;
      } else {
        var m := FailureMessage(orderSku[n - 1]);
        assert FailureLog(orderSku, downloaded, n) == log + [m];
        idx := prev + [n - 1];
        forall k | 0 <= k < |idx|
          ensures FailureLog(orderSku, downloaded, n)[k] == FailureMessage(orderSku[idx[k]])
        {
          if k < |prev| {
            assert (log + [m])[k] == log[k];
          }
        }
      }
    }
  }
}
