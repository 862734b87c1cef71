/**
 * One run of the label printer, from the key file text to the downloads it
 * asks for. The order list (what the order API returned for the credential)
 * and the drive's responses (one per search key) are inputs.
 */
module Driver {
  import opened Wrappers
  import opened Orders
  import opened KeyDerivation
  import opened Credentials
  import opened DriveSearch
  import opened Downloads
  import opened Seqs

  datatype Outcome =
    | KeysImproperlySet                          // the key file does not hold exactly two keys
    | NoOrders                                   // the order API returned an empty list
    | IndexOutOfRange(attempted: seq<Download>)  // more results than keys: the loop runs off orderSku
    | Completed(downloads: seq<Download>)

  function Run(keyFile: Option<string>, orders: seq<Order>, responses: seq<Option<seq<DriveFile>>>): (o: Outcome)
    requires |responses| == |SearchKeys(orders)|
    ensures o.KeysImproperlySet? <==> Credential(keyFile).None?
    ensures o.NoOrders? <==> Credential(keyFile).Some? && orders == []
    ensures o.Completed? <==> Credential(keyFile).Some? && orders != [] && MatchCount(responses) <= LabelCount(orders)
    ensures o.Completed? ==> |o.downloads| == MatchCount(responses)
    ensures o.IndexOutOfRange? ==> |o.attempted| == LabelCount(orders) < MatchCount(responses)
  {
    SearchKeysCount(orders);
    LocatedCount(responses);
    if Credential(keyFile).None? then KeysImproperlySet
    else if orders == [] then NoOrders
    else
      var orderSku := SearchKeys(orders);
      var results := Located(responses);
      if |results| <= |orderSku| then Completed(DownloadCalls(results, orderSku))
      else IndexOutOfRange(DownloadCalls(results[..|orderSku|], orderSku))
  }

  /**
   * Two pending orders with items asking for 1, 2 and 1 labels give four
   * keys; every key but the second "100#SKU2" finds one image, so three
   * files are downloaded. The positional pairing then saves the image
   * found for "200#SKU3" under the name built from "100#SKU2".
   */
  lemma ExampleRun(f1: DriveFile, f2: DriveFile, f3: DriveFile)
    requires '#' !in f1.id && '#' !in f2.id && '#' !in f3.id
    ensures |SearchKeys(ExampleOrders)| == 4
    ensures Run(Some(KeyFile("ab12", "cd34")), ExampleOrders, [Some([f1]), Some([f2]), Some([]), Some([f3])])
      == Completed([
        Download(f1.id, OutputName("100#SKU1", 0)),
        Download(f2.id, OutputName("100#SKU2", 1)),
        Download(f3.id, OutputName("100#SKU2", 2))])
  {
    ExampleKeys();
    FilledKeyFile("ab12", "cd34");
    ExampleResults(f1, f2, f3);
  }

  lemma ExampleResults(f1: DriveFile, f2: DriveFile, f3: DriveFile)
    requires '#' !in f1.id && '#' !in f2.id && '#' !in f3.id
    ensures var results := Located([Some([f1]), Some([f2]), Some([]), Some([f3])]);
      |results| == 3 &&
      DownloadCalls(results, ["100#SKU1", "100#SKU2", "100#SKU2", "200#SKU3"]) == [
        Download(f1.id, OutputName("100#SKU1", 0)),
        Download(f2.id, OutputName("100#SKU2", 1)),
        Download(f3.id, OutputName("100#SKU2", 2))]
  {
    ExampleEmptySkipped(f1, f2, f3);
    var files := [f1, f2, f3];
    var keys := ["100#SKU1", "100#SKU2", "100#SKU2", "200#SKU3"];
    var one := seq(3, i requires 0 <= i < 3 => Some([files[i]]));
    assert one == [Some([f1]), Some([f2]), Some([f3])];
    AlignedWhenOneMatchEach(keys, files);
    var calls := DownloadCalls(Located(one), keys);
    assert calls[0] == Download(f1.id, OutputName("100#SKU1", 0));
    assert calls[1] == Download(f2.id, OutputName("100#SKU2", 1));
    assert calls[2] == Download(f3.id, OutputName("100#SKU2", 2));
  }

  /** The empty response of the example adds no result entry. */
  lemma ExampleEmptySkipped(f1: DriveFile, f2: DriveFile, f3: DriveFile)
    ensures Located([Some([f1]), Some([f2]), Some([]), Some([f3])]) == Located([Some([f1]), Some([f2]), Some([f3])])
  {
    EmptyResponseSkipped([Some([f1]), Some([f2])], [Some([f3])]);
    assert [Some([f1]), Some([f2])] + [Some([])] + [Some([f3])] == [Some([f1]), Some([f2]), Some([]), Some([f3])];
    assert [Some([f1]), Some([f2])] + [Some([f3])] == [Some([f1]), Some([f2]), Some([f3])];
  }

  /**
   * A key that finds two files, while every other key finds one, makes the
   * download loop index past the end of the key list.
   */
  lemma TwoMatchesOverrun(keyFile: Option<string>, orders: seq<Order>, responses: seq<Option<seq<DriveFile>>>, j: nat)
    requires Credential(keyFile).Some? && orders != []
    requires |responses| == |SearchKeys(orders)|
    requires j < |responses| && responses[j].Some? && |responses[j].value| == 2
    requires forall i :: 0 <= i < |responses| && i != j ==> responses[i].Some? && |responses[i].value| == 1
    ensures Run(keyFile, orders, responses).IndexOutOfRange?
  {
    SearchKeysCount(orders);
    LocatedCount(responses);
    var pre, post := responses[..j], responses[j + 1..];
    assert responses == pre + [responses[j]] + post;
    ConcatMapSplit(Contribution, pre, responses[j], post);
    ConcatMapSingle(Contribution, responses[j]);
    EntriesShape(responses[j].value);
    OneMatchEachCount(pre);
    OneMatchEachCount(post);
  }
}
