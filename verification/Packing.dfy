/** scripts/session-transcripts.ts: transcripts are packed greedily into files of limited size. */
module Packing {

  const MAX_CHARS_PER_FILE := 100_000

  const SEPARATOR := "\n\n"

  function Join(group: seq<string>): string {
    if group == [] then ""
    else if |group| == 1 then group[0]
    else Join(group[..|group| - 1]) + SEPARATOR + group[|group| - 1]
  }

  function Flatten(groups: seq<seq<string>>): seq<string> {
    if groups == [] then [] else groups[0] + Flatten(groups[1..])
  }

  /** What a file may hold: transcripts within the limit, or a single one of any size. */
  predicate Legal(group: seq<string>) {
    group != [] && (|group| == 1 || |Join(group)| <= MAX_CHARS_PER_FILE)
  }

  /** An order-preserving split into files. */
  ghost predicate Splits(groups: seq<seq<string>>, transcripts: seq<string>) {
    Flatten(groups) == transcripts && forall i :: 0 <= i < |groups| ==> Legal(groups[i])
  }

  /** No file could have taken the transcript that follows it. */
  ghost predicate Greedy(groups: seq<seq<string>>) {
    |groups| > 1 ==> groups[1] != [] && !Legal(groups[0] + [groups[1][0]]) && Greedy(groups[1..])
  }

  // ---- Lengths ------------------------------------------------------------------------------------------

  lemma {:induction false} JoinLength(group: seq<string>)
    requires group != []
    ensures |Join(group)| == |Join(group[1..])| + |group[0]| + if |group| > 1 then |SEPARATOR| else 0
  {
    if |group| > 1 {
      var init := group[..|group| - 1];
      JoinLength(init);
      assert init[1..] == group[1..][..|group| - 2];
    }
  }

  /** A part of a file that is not a single transcript is within the limit, too. */
  lemma {:induction false} PrefixLength(group: seq<string>, n: nat)
    requires n <= |group|
    ensures |Join(group[..n])| <= |Join(group)|
  {
    if n < |group| {
      PrefixLength(group[..|group| - 1], n);
      assert group[..|group| - 1][..n] == group[..n];
    } else {
      assert group[..n] == group;
    }
  }

  lemma LegalTail(group: seq<string>)
    requires Legal(group) && |group| > 1
    ensures Legal(group[1..])
  {
    JoinLength(group);
  }

  lemma LegalPrefix(group: seq<string>, n: nat)
    requires Legal(group) && 0 < n <= |group|
    ensures Legal(group[..n])
  {
    PrefixLength(group, n);
  }

  // ---- The fewest files -------------------------------------------------------------------------------------

  /** Without its first transcript a list needs no more files than with it. */
  lemma DropFirst(groups: seq<seq<string>>, transcripts: seq<string>) returns (fewer: seq<seq<string>>)
    requires Splits(groups, transcripts) && transcripts != []
    ensures Splits(fewer, transcripts[1..]) && |fewer| <= |groups|
  {
    if |groups[0]| == 1 {
      fewer := groups[1..];
      assert transcripts[1..] == Flatten(fewer);
    } else {
      LegalTail(groups[0]);
      fewer := [groups[0][1..]] + groups[1..];
      assert fewer[1..] == groups[1..];
      assert transcripts[1..] == Flatten(fewer);
    }
  }

  lemma {:induction false} DropMany(groups: seq<seq<string>>, transcripts: seq<string>, n: nat) returns (fewer: seq<seq<string>>)
    requires Splits(groups, transcripts) && n <= |transcripts|
    ensures Splits(fewer, transcripts[n..]) && |fewer| <= |groups|
    decreases n
  {
    if n == 0 {
      fewer := groups;
      assert transcripts[0..] == transcripts;
    } else {
      fewer := DropFirst(groups, transcripts);
      fewer := DropMany(fewer, transcripts[1..], n - 1);
      assert transcripts[1..][n - 1..] == transcripts[n..];
    }
  }

  /** The greedy split's first file holds at least as many transcripts as that of any other split. */
  lemma FirstFileIsLongest(greedy: seq<seq<string>>, other: seq<seq<string>>, transcripts: seq<string>)
    requires Splits(greedy, transcripts) && Greedy(greedy) && Splits(other, transcripts) && |greedy| > 1 && other != []
    ensures |other[0]| <= |greedy[0]|
  {
    hide Legal;
    var n := |greedy[0]|;
    if |other[0]| > n {
      FirstTranscripts(other, transcripts, n + 1);
      FirstTranscripts(greedy[1..], transcripts[n..], 1);
      assert greedy[1][..1] == [greedy[1][0]];
      assert transcripts[..n + 1] == transcripts[..n] + transcripts[n..][..1];
      assert transcripts == greedy[0] + Flatten(greedy[1..]);
      LegalPrefix(other[0], n + 1);
    }
  }

  /** A split begins with the transcripts of its first file. */
  lemma FirstTranscripts(groups: seq<seq<string>>, transcripts: seq<string>, k: nat)
    requires groups != [] && Flatten(groups) == transcripts && k <= |groups[0]|
    ensures k <= |transcripts| && transcripts[..k] == groups[0][..k]
  {
  }

  /** No order-preserving split into legal files uses fewer files than a greedy one. */
  lemma {:induction false} GreedyIsMinimal(greedy: seq<seq<string>>, other: seq<seq<string>>, transcripts: seq<string>)
    requires Splits(greedy, transcripts) && Greedy(greedy) && Splits(other, transcripts)
    ensures |greedy| <= |other|
    decreases |greedy|
  {
    if greedy != [] {
      assert transcripts != [] && other != [];
      if |greedy| > 1 {
        FirstFileIsLongest(greedy, other, transcripts);
        var n, k := |greedy[0]|, |other[0]|;
        assert Splits(other[1..], transcripts[k..]);
        var fewer := DropMany(other[1..], transcripts[k..], n - k);
        assert transcripts[k..][n - k..] == transcripts[n..];
        assert Splits(greedy[1..], transcripts[n..]);
        GreedyIsMinimal(greedy[1..], fewer, transcripts[n..]);
      }
    }
  }

  // ---- The loop ------------------------------------------------------------------------------------------------

  lemma {:induction false} FlattenAppend(groups: seq<seq<string>>, group: seq<string>)
    ensures Flatten(groups + [group]) == Flatten(groups) + group
  {
    if groups != [] {
      assert (groups + [group])[1..] == groups[1..] + [group];
      FlattenAppend(groups[1..], group);
    } else {
      assert (groups + [group])[1..] == [];
    }
  }

  lemma {:induction false} GreedyAppend(groups: seq<seq<string>>, group: seq<string>)
    requires Greedy(groups) && group != []
    requires groups != [] ==> !Legal(groups[|groups| - 1] + [group[0]])
    ensures Greedy(groups + [group])
  {
    if |groups| > 1 {
      assert (groups + [group])[1..] == groups[1..] + [group];
      GreedyAppend(groups[1..], group);
    }
  }

  /** The files closed so far, each as full as it could be given the transcript that comes next. */
  ghost predicate Closed(groups: seq<seq<string>>, files: seq<string>, taken: seq<string>, next: seq<string>) {
    && Splits(groups, taken) && Greedy(groups)
    && |files| == |groups| && (forall i :: 0 <= i < |files| ==> files[i] == Join(groups[i]))
    && (groups != [] && next != [] ==> !Legal(groups[|groups| - 1] + [next[0]]))
  }

  /** The files are the groups of a greedy split, each joined by separators. */
  ghost predicate Packed(groups: seq<seq<string>>, files: seq<string>, transcripts: seq<string>) {
    && Splits(groups, transcripts) && Greedy(groups)
    && |files| == |groups| && forall i :: 0 <= i < |files| ==> files[i] == Join(groups[i])
  }

  /** So no way to split the transcripts into legal files gets by with fewer. */
  lemma PackedIsMinimal(groups: seq<seq<string>>, files: seq<string>, other: seq<seq<string>>, transcripts: seq<string>)
    requires Packed(groups, files, transcripts) && Splits(other, transcripts)
    ensures |files| <= |other| && forall i :: 0 <= i < |files| ==> |files[i]| <= MAX_CHARS_PER_FILE || files[i] in transcripts
  {
    GreedyIsMinimal(groups, other, transcripts);
    forall i | 0 <= i < |files| && |files[i]| > MAX_CHARS_PER_FILE ensures files[i] in transcripts {
      FlattenHolds(groups, i);
    }
  }

  lemma {:induction false} FlattenHolds(groups: seq<seq<string>>, i: nat)
    requires i < |groups|
    ensures forall t :: t in groups[i] ==> t in Flatten(groups)
  {
    if i > 0 { FlattenHolds(groups[1..], i - 1); }
  }

  lemma CloseFile(groups: seq<seq<string>>, files: seq<string>, taken: seq<string>, group: seq<string>, next: seq<string>)
    requires Closed(groups, files, taken, group + next) && Legal(group)
    requires next != [] ==> !Legal(group + [next[0]])
    ensures Closed(groups + [group], files + [Join(group)], taken + group, next)
  {
    FlattenAppend(groups, group);
    assert (group + next)[0] == group[0];
    GreedyAppend(groups, group);
  }

  /** A file and one more transcript. */
  lemma JoinMore(group: seq<string>, transcript: string)
    ensures Join(group + [transcript]) == if group == [] then transcript else Join(group) + SEPARATOR + transcript
  {
    assert (group + [transcript])[..|group|] == group;
  }

  /** The two checks of the loop decide what a file may hold. */
  lemma LegalMore(group: seq<string>, transcript: string)
    requires group != [] ==> Legal(group)
    ensures Legal(group + [transcript]) <==> group == [] || |Join(group)| + |transcript| + 2 <= MAX_CHARS_PER_FILE
    ensures Join([]) == "" && Join([transcript]) == transcript && Legal([transcript])
  {
    JoinMore(group, transcript);
  }

  lemma OversizedStaysAlone(transcript: string, next: seq<string>)
    requires |transcript| > MAX_CHARS_PER_FILE
    ensures next != [] ==> !Legal([transcript] + [next[0]])
  {
    if next != [] { JoinMore([transcript], next[0]); }
  }

  /** Before transcript k: the files written, the content of the one that is open, and the transcripts it
      holds. */
  ghost predicate Packing(groups: seq<seq<string>>, files: seq<string>, current: seq<string>, content: string,
                          all: seq<string>, k: nat)
  {
    && k <= |all| && Flatten(groups) + current == all[..k]
    && Closed(groups, files, Flatten(groups), current + all[k..])
    && content == Join(current) && (current != [] ==> Legal(current) && content != "")
  }

  lemma NothingPacked(all: seq<string>)
    ensures Packing([], [], [], "", all, 0)
  {
  }

  lemma WriteOpenFile(groups: seq<seq<string>>, files: seq<string>, current: seq<string>, content: string,
                      all: seq<string>, k: nat)
    requires Packing(groups, files, current, content, all, k) && content != ""
    requires k < |all| ==> |content| + |all[k]| + 2 > MAX_CHARS_PER_FILE
    ensures Packing(groups + [current], files + [content], [], "", all, k)
  {
    assert current != [];
    if k < |all| {
      LegalMore(current, all[k]);
      assert all[k..][0] == all[k];
    }
    FlattenAppend(groups, current);
    CloseFile(groups, files, Flatten(groups), current, all[k..]);
    assert [] + all[k..] == all[k..] && Flatten(groups) + current + [] == all[..k];
  }

  lemma WriteOversized(groups: seq<seq<string>>, files: seq<string>, all: seq<string>, k: nat)
    requires Packing(groups, files, [], "", all, k) && k < |all| && |all[k]| > MAX_CHARS_PER_FILE
    ensures Packing(groups + [[all[k]]], files + [all[k]], [], "", all, k + 1)
  {
    hide Closed, Flatten;
    var t, next := all[k], all[k + 1..];
    assert [] + all[k..] == [t] + next && [] + next == next;
    OversizedStaysAlone(t, next);
    FlattenAppend(groups, [t]);
    CloseFile(groups, files, Flatten(groups), [t], next);
    assert Flatten(groups) + [] == Flatten(groups);
    assert Flatten(groups) + [t] + [] == all[..k + 1];
  }

  lemma AddToOpenFile(groups: seq<seq<string>>, files: seq<string>, current: seq<string>, content: string,
                      all: seq<string>, k: nat)
    requires Packing(groups, files, current, content, all, k) && k < |all| && all[k] != ""
    requires content != "" ==> |content| + |all[k]| + 2 <= MAX_CHARS_PER_FILE
    ensures Packing(groups, files, current + [all[k]], content + (if content != "" then SEPARATOR else "") + all[k], all, k + 1)
  {
    hide Closed, Flatten, Legal, Join;
    var t := all[k];
    LegalMore(current, t);
    JoinMore(current, t);
    assert current + all[k..] == current + [t] + all[k + 1..];
    assert Flatten(groups) + (current + [t]) == all[..k + 1];
  }

  lemma AllPacked(groups: seq<seq<string>>, files: seq<string>, all: seq<string>)
    requires Packing(groups, files, [], "", all, |all|)
    ensures Packed(groups, files, all)
  {
    assert Flatten(groups) + [] == Flatten(groups) && all[..|all|] == all;
  }

  /** Files are written in order. A transcript over the limit finds no file open: the check before has
      closed it. */
  method PackTranscripts(allTranscripts: seq<string>) returns (outputFiles: seq<string>)
    requires forall t :: t in allTranscripts ==> t != ""
    ensures exists groups :: Packed(groups, outputFiles, allTranscripts)
  {
    hide Packing, Packed;
    outputFiles := [];
    ghost var groups: seq<seq<string>>, current: seq<string> := [], [];
    var currentContent := "";
    NothingPacked(allTranscripts);
    for k := 0 to |allTranscripts|
      invariant Packing(groups, outputFiles, current, currentContent, allTranscripts, k)
      invariant currentContent == "" ==> current == []
    {
      var transcript := allTranscripts[k];
      assert transcript in allTranscripts;
      if |currentContent| > 0 && |currentContent| + |transcript| + 2 > MAX_CHARS_PER_FILE {
        WriteOpenFile(groups, outputFiles, current, currentContent, allTranscripts, k);
        outputFiles, groups, current := outputFiles + [currentContent], groups + [current], [];
        currentContent := "";
      }
      if |transcript| > MAX_CHARS_PER_FILE {
        assert currentContent == "";
        WriteOversized(groups, outputFiles, allTranscripts, k);
        outputFiles, groups := outputFiles + [transcript], groups + [[transcript]];
        continue;
      }
      AddToOpenFile(groups, outputFiles, current, currentContent, allTranscripts, k);
      currentContent := currentContent + (if currentContent != "" then SEPARATOR else "") + transcript;
      current := current + [transcript];
    }
    if |currentContent| > 0 {
      WriteOpenFile(groups, outputFiles, current, currentContent, allTranscripts, |allTranscripts|);
      outputFiles, groups, current := outputFiles + [currentContent], groups + [current], [];
    }
    AllPacked(groups, outputFiles, allTranscripts);
  }
}
