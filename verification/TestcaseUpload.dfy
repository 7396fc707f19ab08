/** `create_problem`: uploading the paired files and adding one testcase row per pair, and what is left when
    something raises on the way. */
module TestcaseUpload {
  import opened JudgeTypes
  import opened Strings
  import opened ArchivePairing

  type Data = seq<nat>

  datatype TestCaseRow = TestCaseRow(problemId: string, inputKey: string, outputKey: string)

  const UUID_LENGTH := 32

  /** Hexadecimal uuid4 values: all of one length, no two equal. */
  predicate FreshIds(uuids: seq<string>) {
    && (forall i | 0 <= i < |uuids| :: |uuids[i]| == UUID_LENGTH)
    && (forall i, j | 0 <= i < j < |uuids| :: uuids[i] != uuids[j])
  }

  function Folder(problemId: string): string { "problems/" + problemId + "/" }

  function ObjectKey(problemId: string, uuid: string, name: string): string {
    Folder(problemId) + uuid + "-" + name
  }

  lemma KeysDiffer(problemId: string, u: string, a: string, v: string, b: string)
    requires |u| == |v| == UUID_LENGTH && u != v
    ensures ObjectKey(problemId, u, a) != ObjectKey(problemId, v, b)
  {
    var f := |Folder(problemId)|;
    assert ObjectKey(problemId, u, a)[f..f + UUID_LENGTH] == u;
    assert ObjectKey(problemId, v, b)[f..f + UUID_LENGTH] == v;
  }

  /** The file of the j-th upload: input and output alternate. */
  function FileAt(inputs: seq<string>, outputs: seq<string>, j: nat): string
    requires j < 2 * |inputs| && |inputs| == |outputs|
  {
    if j % 2 == 0 then inputs[j / 2] else outputs[j / 2]
  }

  function KeyAt(problemId: string, inputs: seq<string>, outputs: seq<string>, uuids: seq<string>, j: nat): string
    requires j < 2 * |inputs| <= |uuids| && |inputs| == |outputs|
  {
    ObjectKey(problemId, uuids[j], BaseName(FileAt(inputs, outputs, j)))
  }

  /** The row of the i-th pair. */
  function RowAt(problemId: string, inputs: seq<string>, outputs: seq<string>, uuids: seq<string>, i: nat): TestCaseRow
    requires i < |inputs| == |outputs| && 2 * |inputs| <= |uuids|
  {
    TestCaseRow(problemId, KeyAt(problemId, inputs, outputs, uuids, 2 * i), KeyAt(problemId, inputs, outputs, uuids, 2 * i + 1))
  }

  lemma DistinctKeys(problemId: string, inputs: seq<string>, outputs: seq<string>, uuids: seq<string>, i: nat, j: nat)
    requires i < j < 2 * |inputs| <= |uuids| && |inputs| == |outputs| && FreshIds(uuids)
    ensures KeyAt(problemId, inputs, outputs, uuids, i) != KeyAt(problemId, inputs, outputs, uuids, j)
  {
    KeysDiffer(problemId, uuids[i], BaseName(FileAt(inputs, outputs, i)), uuids[j], BaseName(FileAt(inputs, outputs, j)));
  }

  /** list_objects_v2 returns at most this many keys, and delete_problem_folder asks once. */
  const PAGE := 1000

  /** What is outside: the archive, the bucket, the database. `putOk(j)` says whether the j-th upload succeeds;
      `page` is the page of keys a listing returns. */
  datatype Outside = Outside(
    flushOk: bool,
    read: string -> Outcome<Data>,
    putOk: nat -> bool,
    commitOk: bool,
    cleanupOk: bool,
    page: set<string> -> set<string>
  )

  ghost predicate ListsOnePage(o: Outside) {
    forall keys :: o.page(keys) <= keys && |o.page(keys)| == Min(|keys|, PAGE)
  }

  /** The uploads the i-th turn of the loop gets done before it raises, or both. */
  function UploadsInTurn(o: Outside, inputs: seq<string>, outputs: seq<string>, i: nat): nat
    requires i < |inputs| == |outputs|
  {
    if o.read(inputs[i]).Raised? || o.read(outputs[i]).Raised? || !o.putOk(2 * i) then 0
    else if !o.putOk(2 * i + 1) then 1
    else 2
  }

  lemma AtMostTwo(o: Outside, inputs: seq<string>, outputs: seq<string>, i: nat)
    requires i < |inputs| == |outputs|
    ensures UploadsInTurn(o, inputs, outputs, i) <= 2
  {
  }

  predicate NothingRaises(o: Outside, inputs: seq<string>, outputs: seq<string>)
    requires |inputs| == |outputs|
  {
    forall i | 0 <= i < |inputs| :: UploadsInTurn(o, inputs, outputs, i) == 2
  }

  /** The uploads the loop gets done from the i-th turn on. */
  function Uploaded(o: Outside, inputs: seq<string>, outputs: seq<string>, i: nat): nat
    requires i <= |inputs| == |outputs|
    decreases |inputs| - i
  {
    if i == |inputs| then 0
    else if UploadsInTurn(o, inputs, outputs, i) < 2 then UploadsInTurn(o, inputs, outputs, i)
    else 2 + Uploaded(o, inputs, outputs, i + 1)
  }

  lemma {:induction false} AllUploaded(o: Outside, inputs: seq<string>, outputs: seq<string>, i: nat)
    requires i <= |inputs| == |outputs| && NothingRaises(o, inputs, outputs)
    ensures Uploaded(o, inputs, outputs, i) == 2 * (|inputs| - i)
    decreases |inputs| - i
  {
    if i < |inputs| {
      AllUploaded(o, inputs, outputs, i + 1);
    }
  }

  /** How many of `n` objects in the folder survive the clean-up after a failure. */
  function LeftOver(n: nat, cleanupOk: bool): nat { if cleanupOk then Max(0, n - PAGE) else n }

  predicate Succeeds(o: Outside, inputs: seq<string>, outputs: seq<string>)
    requires |inputs| == |outputs|
  {
    o.flushOk && NothingRaises(o, inputs, outputs) && o.commitOk
  }

  /** What is left in a folder that held `n` objects when create_problem fails. */
  function LeftByFailure(n: nat, o: Outside, inputs: seq<string>, outputs: seq<string>): nat
    requires |inputs| == |outputs|
  {
    LeftOver(n + (if o.flushOk then Uploaded(o, inputs, outputs, 0) else 0), o.cleanupOk)
  }

  lemma {:induction false} AtMostAllUploaded(o: Outside, inputs: seq<string>, outputs: seq<string>, i: nat)
    requires i <= |inputs| == |outputs|
    ensures Uploaded(o, inputs, outputs, i) <= 2 * (|inputs| - i)
    decreases |inputs| - i
  {
    if i < |inputs| {
      AtMostAllUploaded(o, inputs, outputs, i + 1);
    }
  }

  /** When everything goes well but the commit. */
  const COMMIT_FAILS: Outside := Outside(true, _ => Returned([]), _ => true, false, true, keys => keys)

  /** A caller of create_problem can be sure that no failure leaves objects behind, whatever it is that fails
      short of the clean-up itself, exactly when the folder and the archive together fit on one page. */
  lemma NothingLeftExactlyWhen(n: nat, inputs: seq<string>, outputs: seq<string>)
    requires |inputs| == |outputs|
    ensures (forall o: Outside | o.cleanupOk && !Succeeds(o, inputs, outputs) :: LeftByFailure(n, o, inputs, outputs) == 0)
              <==> n + 2 * |inputs| <= PAGE
  {
    if n + 2 * |inputs| <= PAGE {
      forall o: Outside | o.cleanupOk
        ensures LeftByFailure(n, o, inputs, outputs) == 0
      {
        AtMostAllUploaded(o, inputs, outputs, 0);
      }
    } else {
      LargeArchiveLeavesObjects(n, COMMIT_FAILS, inputs, outputs);
    }
  }

  /** A folder and archive that do not: if then the commit fails and nothing else, all objects but one page
      stay in the bucket, and no row refers to them. */
  lemma LargeArchiveLeavesObjects(n: nat, o: Outside, inputs: seq<string>, outputs: seq<string>)
    requires |inputs| == |outputs| && n + 2 * |inputs| > PAGE
    requires o.flushOk && NothingRaises(o, inputs, outputs) && !o.commitOk && o.cleanupOk
    ensures !Succeeds(o, inputs, outputs) && LeftByFailure(n, o, inputs, outputs) == n + 2 * |inputs| - PAGE > 0
  {
    AllUploaded(o, inputs, outputs, 0);
  }

  function InFolder(objects: map<string, Data>, folder: string): set<string> {
    set k | k in objects && folder <= k
  }

  lemma OneMoreKey(objects: map<string, Data>, folder: string, key: string, data: Data)
    requires key !in objects && folder <= key
    ensures |InFolder(objects[key := data], folder)| == |InFolder(objects, folder)| + 1
  {
    assert InFolder(objects[key := data], folder) == InFolder(objects, folder) + {key};
  }

  /** Nothing outside the folder changes, and nothing that was there is overwritten. */
  ghost predicate OnlyAdded(before: map<string, Data>, after: map<string, Data>, folder: string) {
    && (forall k | k in before :: k in after && after[k] == before[k])
    && (forall k | k in after && k !in before :: folder <= k)
  }

  /** The keys from the j-th upload on are not taken. */
  ghost predicate KeysFree(objects: map<string, Data>, problemId: string, inputs: seq<string>, outputs: seq<string>,
                           uuids: seq<string>, j: nat)
    requires |inputs| == |outputs| && 2 * |inputs| <= |uuids|
  {
    forall i | j <= i < 2 * |inputs| :: KeyAt(problemId, inputs, outputs, uuids, i) !in objects
  }

  /** The first `j` uploads are in the bucket. */
  ghost predicate Stored(objects: map<string, Data>, o: Outside, problemId: string, inputs: seq<string>, outputs: seq<string>,
                         uuids: seq<string>, j: nat)
    requires j <= 2 * |inputs| <= |uuids| && |inputs| == |outputs|
  {
    forall i | 0 <= i < j ::
      && KeyAt(problemId, inputs, outputs, uuids, i) in objects
      && o.read(FileAt(inputs, outputs, i)) == Returned(objects[KeyAt(problemId, inputs, outputs, uuids, i)])
  }

  /** Under the keys of every row are the data of its input file and of its output file. */
  ghost predicate BothStored(objects: map<string, Data>, o: Outside, problemId: string, inputs: seq<string>,
                             outputs: seq<string>, uuids: seq<string>)
    requires |inputs| == |outputs| && 2 * |inputs| <= |uuids|
  {
    forall i | 0 <= i < |inputs| ::
      var row := RowAt(problemId, inputs, outputs, uuids, i);
      && row.inputKey in objects && o.read(inputs[i]) == Returned(objects[row.inputKey])
      && row.outputKey in objects && o.read(outputs[i]) == Returned(objects[row.outputKey])
  }

  lemma FilesOfPair(inputs: seq<string>, outputs: seq<string>, i: nat)
    requires i < |inputs| == |outputs|
    ensures FileAt(inputs, outputs, 2 * i) == inputs[i] && FileAt(inputs, outputs, 2 * i + 1) == outputs[i]
  {
  }

  lemma PairsStored(objects: map<string, Data>, o: Outside, problemId: string, inputs: seq<string>,
                    outputs: seq<string>, uuids: seq<string>)
    requires |inputs| == |outputs| && 2 * |inputs| <= |uuids| && Stored(objects, o, problemId, inputs, outputs, uuids, 2 * |inputs|)
    ensures BothStored(objects, o, problemId, inputs, outputs, uuids)
  {
    hide KeyAt, FileAt;
    forall i | 0 <= i < |inputs|
      ensures var row := RowAt(problemId, inputs, outputs, uuids, i);
              && row.inputKey in objects && o.read(inputs[i]) == Returned(objects[row.inputKey])
              && row.outputKey in objects && o.read(outputs[i]) == Returned(objects[row.outputKey])
    {
      FilesOfPair(inputs, outputs, i);
    }
  }

  /** One more upload: it has its own key, so nothing stored before is lost. */
  lemma OneMoreUpload(before: map<string, Data>, objects: map<string, Data>, o: Outside, problemId: string,
                      inputs: seq<string>, outputs: seq<string>, uuids: seq<string>, j: nat, data: Data)
    requires j < 2 * |inputs| <= |uuids| && |inputs| == |outputs| && FreshIds(uuids)
    requires OnlyAdded(before, objects, Folder(problemId)) && KeysFree(objects, problemId, inputs, outputs, uuids, j)
    requires Stored(objects, o, problemId, inputs, outputs, uuids, j) && o.read(FileAt(inputs, outputs, j)) == Returned(data)
    ensures var now := objects[KeyAt(problemId, inputs, outputs, uuids, j) := data];
            && OnlyAdded(before, now, Folder(problemId)) && KeysFree(now, problemId, inputs, outputs, uuids, j + 1)
            && Stored(now, o, problemId, inputs, outputs, uuids, j + 1)
            && |InFolder(now, Folder(problemId))| == |InFolder(objects, Folder(problemId))| + 1
  {
    var key := KeyAt(problemId, inputs, outputs, uuids, j);
    var now := objects[key := data];
    OneMoreKey(objects, Folder(problemId), key, data);
    hide KeyAt, FileAt, Folder;
    forall i | j + 1 <= i < 2 * |inputs|
      ensures KeyAt(problemId, inputs, outputs, uuids, i) !in now
    {
      DistinctKeys(problemId, inputs, outputs, uuids, j, i);
    }
    forall i | 0 <= i < j
      ensures KeyAt(problemId, inputs, outputs, uuids, i) in now
      ensures now[KeyAt(problemId, inputs, outputs, uuids, i)] == objects[KeyAt(problemId, inputs, outputs, uuids, i)]
    {
      DistinctKeys(problemId, inputs, outputs, uuids, i, j);
    }
  }

  class ProblemStore {
    var testcases: seq<TestCaseRow>       // rows of the testcases table, in id order
    var objects: map<string, Data>        // the testcase bucket

    constructor ()
      ensures testcases == [] && objects == map[]
    {
      testcases, objects := [], map[];
    }

    /** upload_bytes; an upload that raises stores nothing. */
    method Upload(problemId: string, uuid: string, name: string, data: Data, putOk: bool) returns (key: string)
      modifies this`objects
      ensures key == ObjectKey(problemId, uuid, name) && objects == if putOk then old(objects)[key := data] else old(objects)
    {
      key := ObjectKey(problemId, uuid, name);
      if putOk {
        objects := objects[key := data];
      }
    }

    /** delete_problem_folder: lists one page of the folder and deletes what is on it. */
    method DeleteFolder(problemId: string, o: Outside)
      requires ListsOnePage(o)
      modifies this`objects
      ensures |InFolder(objects, Folder(problemId))| == LeftOver(|old(InFolder(objects, Folder(problemId)))|, o.cleanupOk)
      ensures objects.Keys == old(objects).Keys -
                if o.cleanupOk then o.page(old(InFolder(objects, Folder(problemId)))) else {}
      ensures forall k | k in objects :: k in old(objects) && objects[k] == old(objects)[k]
      ensures forall k | k in old(objects) && !(Folder(problemId) <= k) :: k in objects
    {
      if o.cleanupOk {
        var keys := InFolder(objects, Folder(problemId));
        var listed := o.page(keys);
        objects := map k | k in objects && k !in listed :: objects[k];
        assert InFolder(objects, Folder(problemId)) == keys - listed;
      }
    }

    /** One turn of the loop. It leaves what was uploaded when it raises. */
    method UploadPair(problemId: string, inputs: seq<string>, outputs: seq<string>, uuids: seq<string>, o: Outside, k: nat,
                      ghost before: map<string, Data>)
      returns (ok: bool, row: TestCaseRow)
      requires k < |inputs| == |outputs| && 2 * |inputs| <= |uuids| && FreshIds(uuids)
      requires OnlyAdded(before, objects, Folder(problemId)) && KeysFree(objects, problemId, inputs, outputs, uuids, 2 * k)
      requires Stored(objects, o, problemId, inputs, outputs, uuids, 2 * k)
      modifies this`objects
      ensures ok <==> UploadsInTurn(o, inputs, outputs, k) == 2
      ensures OnlyAdded(before, objects, Folder(problemId))
      ensures |InFolder(objects, Folder(problemId))| ==
                |InFolder(old(objects), Folder(problemId))| + UploadsInTurn(o, inputs, outputs, k)
      ensures ok ==> KeysFree(objects, problemId, inputs, outputs, uuids, 2 * k + 2)
                     && Stored(objects, o, problemId, inputs, outputs, uuids, 2 * k + 2)
                     && row == RowAt(problemId, inputs, outputs, uuids, k)
    {
      hide BaseName, Folder, FreshIds, OnlyAdded, KeysFree, Stored, InFolder, ObjectKey;
      row := TestCaseRow(problemId, [], []);
      var input, output := o.read(inputs[k]), o.read(outputs[k]);
      if input.Raised? || output.Raised? {
        return false, row;
      }
      var inputKey := Upload(problemId, uuids[2 * k], BaseName(inputs[k]), input.value, o.putOk(2 * k));
      if !o.putOk(2 * k) {
        return false, row;
      }
      OneMoreUpload(before, old(objects), o, problemId, inputs, outputs, uuids, 2 * k, input.value);
      ghost var was := objects;
      var outputKey := Upload(problemId, uuids[2 * k + 1], BaseName(outputs[k]), output.value, o.putOk(2 * k + 1));
      if !o.putOk(2 * k + 1) {
        return false, row;
      }
      OneMoreUpload(before, was, o, problemId, inputs, outputs, uuids, 2 * k + 1, output.value);
      return true, TestCaseRow(problemId, inputKey, outputKey);
    }

    /** The loop over the pairs. */
    method UploadPairs(problemId: string, inputs: seq<string>, outputs: seq<string>, uuids: seq<string>, o: Outside)
      returns (ok: bool, rows: seq<TestCaseRow>)
      requires |inputs| == |outputs| && 2 * |inputs| <= |uuids| && FreshIds(uuids)
      requires KeysFree(objects, problemId, inputs, outputs, uuids, 0)
      modifies this`objects
      ensures ok <==> NothingRaises(o, inputs, outputs)
      ensures OnlyAdded(old(objects), objects, Folder(problemId))
      ensures |InFolder(objects, Folder(problemId))| ==
                |InFolder(old(objects), Folder(problemId))| + Uploaded(o, inputs, outputs, 0)
      ensures ok ==> Stored(objects, o, problemId, inputs, outputs, uuids, 2 * |inputs|)
      ensures ok ==> rows == seq(|inputs|, i requires 0 <= i < |inputs| => RowAt(problemId, inputs, outputs, uuids, i))
    {
      hide BaseName, Folder, FreshIds, OnlyAdded, KeysFree, Stored, InFolder, ObjectKey, UploadsInTurn, RowAt;
      AtFirst(objects, o, problemId, inputs, outputs, uuids);
      rows := [];
      for k := 0 to |inputs|
        invariant rows == seq(k, i requires 0 <= i < k => RowAt(problemId, inputs, outputs, uuids, i))
        invariant forall i | 0 <= i < k :: UploadsInTurn(o, inputs, outputs, i) == 2
        invariant OnlyAdded(old(objects), objects, Folder(problemId)) && KeysFree(objects, problemId, inputs, outputs, uuids, 2 * k)
        invariant Stored(objects, o, problemId, inputs, outputs, uuids, 2 * k)
        invariant |InFolder(objects, Folder(problemId))| + Uploaded(o, inputs, outputs, k) ==
                    |InFolder(old(objects), Folder(problemId))| + Uploaded(o, inputs, outputs, 0)
      {
        var row;
        AtMostTwo(o, inputs, outputs, k);
        ok, row := UploadPair(problemId, inputs, outputs, uuids, o, k, old(objects));
        if !ok {
          return;
        }
        rows := rows + [row];
      }
      ok := true;
    }

    /** The `try` of create_problem: flush, loop, commit; and its handler, a rollback and the clean-up of the
        folder. There is one row per pair, with both files stored, or there is no row; in that case the folder
        keeps exactly what one page of the listing did not hold. */
    method CreateTestcases(problemId: string, inputs: seq<string>, outputs: seq<string>, uuids: seq<string>, o: Outside)
      returns (ok: bool)
      requires |inputs| == |outputs| && 2 * |inputs| <= |uuids| && FreshIds(uuids) && ListsOnePage(o)
      requires KeysFree(objects, problemId, inputs, outputs, uuids, 0)
      modifies this
      ensures ok <==> Succeeds(o, inputs, outputs)
      ensures ok ==> testcases == old(testcases) + seq(|inputs|, i requires 0 <= i < |inputs| => RowAt(problemId, inputs, outputs, uuids, i))
      ensures ok ==> BothStored(objects, o, problemId, inputs, outputs, uuids)
      ensures ok ==> OnlyAdded(old(objects), objects, Folder(problemId))
      ensures !ok ==> testcases == old(testcases)
      ensures !ok ==> |InFolder(objects, Folder(problemId))| ==
                        LeftByFailure(|old(InFolder(objects, Folder(problemId)))|, o, inputs, outputs)
      ensures !ok && o.cleanupOk && |old(InFolder(objects, Folder(problemId)))| + 2 * |inputs| <= PAGE ==>
                InFolder(objects, Folder(problemId)) == {}
      ensures forall k | k in old(objects) && !(Folder(problemId) <= k) :: k in objects && objects[k] == old(objects)[k]
    {
      AtMostAllUploaded(o, inputs, outputs, 0);
      ok := o.flushOk;
      var rows := [];
      if ok {
        ok, rows := UploadPairs(problemId, inputs, outputs, uuids, o);
      }
      if ok && o.commitOk {
        PairsStored(objects, o, problemId, inputs, outputs, uuids);
        testcases := testcases + rows;
      } else {
        ok := false;
        DeleteFolder(problemId, o);
      }
    }
  }

  lemma AtFirst(objects: map<string, Data>, o: Outside, problemId: string, inputs: seq<string>, outputs: seq<string>, uuids: seq<string>)
    requires |inputs| == |outputs| && 2 * |inputs| <= |uuids|
    ensures OnlyAdded(objects, objects, Folder(problemId)) && Stored(objects, o, problemId, inputs, outputs, uuids, 0)
  {
  }

  lemma RowKeys(problemId: string, inputs: seq<string>, outputs: seq<string>, uuids: seq<string>, i: nat)
    requires i < |inputs| == |outputs| && 2 * |inputs| <= |uuids|
    ensures RowAt(problemId, inputs, outputs, uuids, i) ==
              TestCaseRow(problemId, ObjectKey(problemId, uuids[2 * i], BaseName(inputs[i])),
                          ObjectKey(problemId, uuids[2 * i + 1], BaseName(outputs[i])))
  {
    hide BaseName, ObjectKey;
  }

  /** From a checked archive: every testcase pairs an input with the output of the same name, its object
      keys end in that name, and in a flat archive the testcases come in name order. */
  lemma CheckedPairsMatch(archive: string, files: seq<string>, problemId: string, uuids: seq<string>, i: nat)
    requires Accepts(archive, files)
    requires i < |InputFiles(archive, files)| && 2 * |InputFiles(archive, files)| <= |uuids|
    ensures |InputFiles(archive, files)| == |OutputFiles(archive, files)|
    ensures var ins, outs := InputFiles(archive, files), OutputFiles(archive, files);
            var row := RowAt(problemId, ins, outs, uuids, i);
            && BaseName(ins[i]) == BaseName(outs[i])
            && row.inputKey == Folder(problemId) + uuids[2 * i] + "-" + BaseName(ins[i])
            && row.outputKey == Folder(problemId) + uuids[2 * i + 1] + "-" + BaseName(ins[i])
    ensures Flat(files, Prefix(archive) + "/inputs/") ==> InNameOrder(InputFiles(archive, files))
  {
    var ins, outs := InputFiles(archive, files), OutputFiles(archive, files);
    assert |BaseNames(ins)| == |BaseNames(outs)|;
    assert BaseNames(ins)[i] == BaseNames(outs)[i];
    RowKeys(problemId, ins, outs, uuids, i);
    if Flat(files, Prefix(archive) + "/inputs/") {
      assert (Prefix(archive) + "/inputs") + "/" == Prefix(archive) + "/inputs/";
      FlatIsInOrder(files, Prefix(archive) + "/inputs");
    }
    hide InputFiles, OutputFiles, BaseName, Folder, RowAt, Flat, Prefix, InNameOrder;
  }
}
