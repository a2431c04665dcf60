/**
 * The GitLab notes: each merge request becomes one Markdown block, and the two
 * syncs rewrite the "Gitlab - Review Requests" and "Gitlab - Merge Requests"
 * notes from a fetched list. The fetched list is a parameter; the HTTP call
 * that produces it is outside this model.
 */
module GitlabSync {
  import opened Text
  import opened MergeRequests
  import opened NoteStore

  const ReviewRequestsNote: string := "Gitlab - Review Requests"
  const MergeRequestsNote: string := "Gitlab - Merge Requests"

  /** The "thought balloon" emoji (U+1F4AD) shown before the comment count. */
  const ThoughtBalloon: string := "\U{1F4AD}"

  /** The four footer fields of a block, before they are joined with " | ". */
  function Footer(mr: MergeRequest): seq<string> {
    [ "[View](" + mr.webUrl + ")",
      "`" + mr.sourceBranch + "`",
      ThoughtBalloon + " " + NatToString(mr.userNotesCount),
      "(" + mr.detailedMergeStatus + ")" ]
  }

  /**
   * The Markdown block written for one merge request: a quote line with the
   * title, then the joined footer, then a blank line.
   */
  function RenderBlock(mr: MergeRequest): (block: string)
    ensures |block| > |mr.title| + 4
    ensures block[0] == '>'
    ensures block[1..1 + |mr.title|] == mr.title
    ensures block[1 + |mr.title|..4 + |mr.title|] == " \n "
    ensures block[|block| - 3..] == " \n\n"
  {
    ">" + mr.title + " \n " + Join(Footer(mr), " | ") + " \n\n"
  }

  /** The block, field by field, with no escaping of any field. */
  lemma RenderBlockFormat(mr: MergeRequest)
    ensures RenderBlock(mr) ==
      ">" + mr.title + " \n "
      + "[View](" + mr.webUrl + ")" + " | "
      + "`" + mr.sourceBranch + "`" + " | "
      + ThoughtBalloon + " " + NatToString(mr.userNotesCount) + " | "
      + "(" + mr.detailedMergeStatus + ")"
      + " \n\n"
  {
    var f := Footer(mr);
    var sep := " | ";
    JoinFour(f[0], f[1], f[2], f[3], sep);
    var t := ">" + mr.title + " \n ";
    var p0 := t + "[View](" + mr.webUrl + ")";
    var p1 := p0 + sep + "`" + mr.sourceBranch + "`";
    var p2 := p1 + sep + ThoughtBalloon + " " + NatToString(mr.userNotesCount);
    var p3 := p2 + sep + "(" + mr.detailedMergeStatus + ")";
    assert t + f[0] == p0;
    assert t + (f[0] + sep + f[1]) == p1;
    assert t + (f[0] + sep + f[1] + sep + f[2]) == p2;
    assert t + (f[0] + sep + f[1] + sep + f[2] + sep + f[3]) == p3;
  }

  /**
   * A sample block: a merge request titled "Fix" with two comments. Its
   * description, state, project and draft flag play no part in the block.
   */
  lemma RenderBlockExample(mr: MergeRequest)
    requires mr.title == "Fix" && mr.webUrl == "x/1" && mr.sourceBranch == "fix"
    requires mr.userNotesCount == 2 && mr.detailedMergeStatus == "mergeable"
    ensures RenderBlock(mr) == ">Fix \n [View](x/1) | `fix` | \U{1F4AD} 2 | (mergeable) \n\n"
  {
    var line := ">" + "Fix" + " \n " + "[View](" + "x/1" + ")" + " | ";
    assert line == ">Fix \n [View](x/1) | ";
    line := line + "`" + "fix" + "`" + " | " + ThoughtBalloon + " " + "2" + " | ";
    assert line == ">Fix \n [View](x/1) | `fix` | \U{1F4AD} 2 | ";
    line := line + "(" + "mergeable" + ")" + " \n\n";
    assert line == ">Fix \n [View](x/1) | `fix` | \U{1F4AD} 2 | (mergeable) \n\n";
    RenderBlockFormat(mr);
    assert NatToString(2) == "2";
  }

  /** The blocks of a list of merge requests, in list order. */
  function Blocks(rs: seq<MergeRequest>): seq<string> {
    seq(|rs|, i requires 0 <= i < |rs| => RenderBlock(rs[i]))
  }

  /** The text of a note holding one block per merge request of `rs`, in order. */
  function NoteText(rs: seq<MergeRequest>): string {
    Concat(Blocks(rs))
  }

  /** One more merge request adds its block at the end of the note. */
  lemma NoteTextSnoc(rs: seq<MergeRequest>, mr: MergeRequest)
    ensures NoteText(rs + [mr]) == NoteText(rs) + RenderBlock(mr)
  {
    assert Blocks(rs + [mr])[..|rs|] == Blocks(rs);
  }

  /** A note is empty exactly when it holds no merge request (every block is non-empty). */
  lemma NoteTextEmptyIff(rs: seq<MergeRequest>)
    ensures NoteText(rs) == "" <==> rs == []
  {
  }

  /** The `draft === false` filter: keeps the non-drafts, in order (see `NonDraftsSnoc`). */
  function NonDrafts(rs: seq<MergeRequest>): (kept: seq<MergeRequest>)
    ensures |kept| <= |rs|
    ensures forall m {:trigger multiset(kept)[m]} :: multiset(kept)[m] == if m.draft then 0 else multiset(rs)[m]
    ensures forall m :: m in kept ==> !m.draft
  {
    if rs == [] then []
    else
      assert rs == [rs[0]] + rs[1..];
      (if rs[0].draft then [] else [rs[0]]) + NonDrafts(rs[1..])
  }

  /** One more merge request is kept at the end of the filtered list, unless it is a draft. */
  lemma {:induction false} NonDraftsSnoc(rs: seq<MergeRequest>, m: MergeRequest)
    ensures NonDrafts(rs + [m]) == NonDrafts(rs) + (if m.draft then [] else [m])
    decreases |rs|
  {
    if rs == [] {
      assert [m][1..] == [];
    } else {
      var head := if rs[0].draft then [] else [rs[0]];
      assert (rs + [m])[0] == rs[0] && (rs + [m])[1..] == rs[1..] + [m];
      NonDraftsSnoc(rs[1..], m);
      assert NonDrafts(rs + [m]) == head + NonDrafts(rs[1..] + [m]);
    }
  }

  /** Filtering a reordered list keeps the same merge requests as filtering the original. */
  lemma NonDraftsOfPermutation(a: seq<MergeRequest>, b: seq<MergeRequest>)
    requires multiset(a) == multiset(b)
    ensures multiset(NonDrafts(a)) == multiset(NonDrafts(b))
  {
  }

  /** Nothing survives the filter exactly when every merge request is a draft. */
  lemma NonDraftsEmptyIff(rs: seq<MergeRequest>)
    ensures NonDrafts(rs) == [] <==> forall m :: m in rs ==> m.draft
  {
  }

  /** Reordering a list does not change whether all of it is drafts, so neither whether the filter empties it. */
  lemma AllDraftsOfPermutation(arranged: seq<MergeRequest>, fetched: seq<MergeRequest>)
    requires multiset(arranged) == multiset(fetched)
    ensures NonDrafts(arranged) == [] <==> forall m :: m in fetched ==> m.draft
  {
    NonDraftsEmptyIff(arranged);
    assert forall m :: m in arranged <==> m in multiset(fetched);
  }

  /**
   * The comparator handed to `sort`, `(r) => r.project_id`: it reads only its
   * first argument, so a positive result means "a after b" whatever b is.
   */
  function SortComparator(a: MergeRequest, b: MergeRequest): int {
    a.projectId
  }

  /**
   * The comparator contradicts itself: for two merge requests of projects with
   * positive ids, it puts each after the other, so it is not an ordering and the
   * order `sort` returns is the engine's choice.
   */
  lemma SortComparatorInconsistent(a: MergeRequest, b: MergeRequest)
    requires a.projectId > 0 && b.projectId > 0
    ensures SortComparator(a, b) > 0 && SortComparator(b, a) > 0
  {
  }

  /**
   * `sort((r) => r.project_id)`: the comparator reads only its first argument,
   * so the order it yields is up to the JavaScript engine. What is certain is
   * that the same records come back, each as often as it went in.
   */
  method EngineSort(fetched: seq<MergeRequest>) returns (arranged: seq<MergeRequest>)
    ensures multiset(arranged) == multiset(fetched)
    ensures |arranged| == |fetched|
  {
    arranged :| multiset(arranged) == multiset(fetched);
    assert |multiset(arranged)| == |multiset(fetched)|;
  }

  /** In one folder, the review note and the merge note are different files. */
  lemma NotesAreDistinct(location: string)
    ensures NotePath(location, ReviewRequestsNote) != NotePath(location, MergeRequestsNote)
  {
  }

  /** Writes merge requests as notes in one folder of a vault. */
  class GitlabNotes {
    const notes: Notes

    constructor (vault: Vault, location: string)
      ensures notes.vault == vault && notes.location == location
    {
      notes := new Notes(vault, location);
    }

    /** Append the block of one merge request to the file. */
    method AppendMrNote(file: File, mr: MergeRequest)
      requires file.path in notes.vault.files
      modifies notes.vault
      ensures notes.vault.files == Appended(old(notes.vault.files), file.path, RenderBlock(mr))
    {
      notes.AppendToFile(file, RenderBlock(mr));
    }

    /** `requests.map(mr => appendMrNote(file, mr))`: one append per merge request, in list order. */
    method AppendMrNotes(file: File, requests: seq<MergeRequest>)
      requires file.path in notes.vault.files
      modifies notes.vault
      ensures notes.vault.files ==
        old(notes.vault.files)[file.path := old(notes.vault.files)[file.path] + NoteText(requests)]
    {
      var i := 0;
      while i < |requests|
        invariant 0 <= i <= |requests|
        invariant notes.vault.files == AppendedAll(old(notes.vault.files), file.path, Blocks(requests[..i]))
      {
        assert Blocks(requests[..i + 1])[..i] == Blocks(requests[..i]);
        AppendMrNote(file, requests[i]);
        i := i + 1;
      }
      assert requests[..i] == requests;
      AppendedAllConcat(old(notes.vault.files), file.path, Blocks(requests));
    }

    /**
     * The write both saves share: `newFile(name)`, then one append per merge
     * request. The note ends up holding exactly their blocks, whatever it held
     * before.
     */
    method WriteNote(name: string, requests: seq<MergeRequest>) returns (file: File)
      modifies notes.vault
      ensures file.path == NotePath(notes.location, name)
      ensures notes.vault.files == old(notes.vault.files)[file.path := NoteText(requests)]
    {
      file := notes.NewFile(name);
      ghost var emptied := notes.vault.files;
      assert emptied[file.path] + NoteText(requests) == NoteText(requests);
      AppendMrNotes(file, requests);
    }

    /**
     * Rewrite the review-requests note from the fetched list: reorder, drop
     * drafts, empty the note, then append one block per remaining request.
     * `written` is the list in the order its blocks were written.
     */
    method SaveReviewRequest(fetched: seq<MergeRequest>) returns (written: seq<MergeRequest>)
      modifies notes.vault
      ensures multiset(written) == multiset(NonDrafts(fetched))
      ensures forall m :: m in written ==> !m.draft
      ensures notes.vault.files ==
        old(notes.vault.files)[NotePath(notes.location, ReviewRequestsNote) := NoteText(written)]
      ensures NoteText(written) == "" <==> forall m :: m in fetched ==> m.draft
    {
      var arranged := EngineSort(fetched);
      var requests := NonDrafts(arranged);
      NonDraftsOfPermutation(arranged, fetched);
      NoteTextEmptyIff(requests);
      AllDraftsOfPermutation(arranged, fetched);
      var file := WriteNote(ReviewRequestsNote, requests);
      written := requests;
    }

    /**
     * Rewrite the merge-requests note from the fetched list: reorder, empty
     * the note, then append one block per request, with no filter.
     */
    method SaveMergeRequest(fetched: seq<MergeRequest>) returns (written: seq<MergeRequest>)
      modifies notes.vault
      ensures multiset(written) == multiset(fetched)
      ensures notes.vault.files ==
        old(notes.vault.files)[NotePath(notes.location, MergeRequestsNote) := NoteText(written)]
      ensures NoteText(written) == "" <==> fetched == []
    {
      var requests := EngineSort(fetched);
      NoteTextEmptyIff(requests);
      var file := WriteNote(MergeRequestsNote, requests);
      written := requests;
    }
  }
}
