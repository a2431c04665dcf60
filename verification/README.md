# obsidian-eye-work: GitLab notes in Dafny

A Dafny model of the part of the Obsidian "Eye Work" plugin that turns GitLab
merge requests into two Markdown notes.

- **Note store** (`NoteStore`, from `notes/notes.ts`). An Obsidian vault is a
  `Vault` object whose `files` field maps a path to its content. A `Notes`
  object holds a folder (`location`) and a reference to that vault. It
  offers get-or-create, empty, append, and `NewFile` (get-or-create then
  empty). Each method is specified as an update of the path→content map.
  The pure functions `WithFile`, `Appended` and `AppendedAll` give the vault
  after each step. Lemmas prove that get-or-create is idempotent. They also
  prove that appending strings in turn to an emptied file leaves exactly
  their concatenation.
- **GitLab notes** (`GitlabSync`, from `notes/gitlab/notes.ts`).
  - `RenderBlock` renders one merge request as a quote line with the title,
    then a footer joined with `" | "`, then a blank line. The comment count
    is printed in decimal by `Text.NatToString`.
  - `NonDrafts` is the `draft === false` filter.
  - `EngineSort` stands for `Array.prototype.sort` with the one-argument
    comparator.
  - The class `GitlabNotes` has `SaveReviewRequest` and `SaveMergeRequest`.
    Each arranges the fetched list, filters it (review requests only), resets
    its note with `NewFile`, and appends one block per item in list order.
  - The fetched list is a parameter of each save. The HTTP client that
    produces it is not modelled.
- **Text** (`Text`). These are the JavaScript built-ins the renderer relies on:
  the decimal form of a non-negative integer, `Array.prototype.join`, and the
  concatenation of a list of strings.

Points where the model is deliberately specific:

- **Sort.** The notes are not sorted by project id. The comparator
  `(r) => r.project_id` reads only its first argument, and
  `SortComparatorInconsistent` shows that it places each of two items after
  the other. So the order is the JavaScript engine's choice. `EngineSort`
  promises only a permutation (same multiset), and the saves promise the same.
- **Save results.** Each save returns the list in the order its blocks were
  written (`written`). This names the order the engine chose; the TypeScript
  methods return nothing.
- **Appends.** Appends are issued one per item in list order. The model runs
  them in sequence.
- **Comment emoji.** The comment emoji (U+1F4AD) is one Unicode scalar value
  in the model. A JavaScript string holds it as two UTF-16 code units.

## Model

| member | source | states |
|---|---|---|
| `Text.NatToString` | notes/gitlab/notes.ts:18 | the printed comment count is a non-empty string of decimal digits with no leading zero, one digit exactly for counts below ten |
| `Text.NatToStringRoundTrip` | notes/gitlab/notes.ts:18 | reading the printed count back as a decimal number gives the count |
| `Text.NatToStringInjective` | notes/gitlab/notes.ts:18 | two different comment counts never print the same |
| `Text.Join` | notes/gitlab/notes.ts:22 | `join` of no parts is empty; otherwise its length is the parts' total length plus one separator between each two neighbours, and it starts with the first part |
| `Text.JoinSnoc` | notes/gitlab/notes.ts:22 | joining one more part gives the earlier join, then the separator, then that part; with `Join`'s one-part case this fixes the contents of every join |
| `Text.JoinFour` | notes/gitlab/notes.ts:15-22 | joining the four footer fields spells them out in order with the separator three times |
| `NoteStore.NotePath` | notes/notes.ts:19 | a note's path is the folder, then `/`, then the note name, then `.md` |
| `NoteStore.NotePathInjective` | notes/notes.ts:19 | in one folder, two different note names never share a path |
| `NoteStore.WithFile` | notes/notes.ts:18-26 | get-or-create leaves an existing file and every other file as they were; a missing file is added with content `""` and nothing else is added |
| `NoteStore.WithFileIdempotent` | notes/notes.ts:18-26 | get-or-create twice on one path leaves the vault as get-or-create once |
| `NoteStore.Appended` | notes/notes.ts:32-34 | appending keeps the file's old content as a prefix, adds the data after it, and changes no other file and no path |
| `NoteStore.AppendedAllConcat` | notes/notes.ts:32-34 | appending strings one after another adds their concatenation, in order, to the file and changes no other file |
| `NoteStore.AppendedAllToEmptied` | notes/notes.ts:12-16 | appending strings in turn to a file just emptied leaves exactly their concatenation |
| `NoteStore.Notes.constructor` | notes/notes.ts:7-10 | the note store keeps the vault it is given (by reference) and the folder |
| `NoteStore.Notes.NewFile` | notes/notes.ts:12-16 | afterwards the note exists at its path with content `""`, whether it existed before or not, and no other file changes |
| `NoteStore.Notes.GetOrCreateFile` | notes/notes.ts:18-26 | returns the handle for the note's path; the vault becomes the get-or-create result for that path |
| `NoteStore.Notes.EmptyFile` | notes/notes.ts:28-30 | the file's content becomes `""`; no other file changes |
| `NoteStore.Notes.AppendToFile` | notes/notes.ts:32-34 | the file's content becomes its old content followed by the data; no other file changes |
| `GitlabSync.RenderBlock` | notes/gitlab/notes.ts:14-22 | a block starts with `>`, carries the title verbatim right after it, follows it with `" \n "`, and ends with `" \n\n"` |
| `GitlabSync.RenderBlockFormat` | notes/gitlab/notes.ts:15-22 | for every merge request, the block is exactly `>`, the title, `" \n "`, `[View](url)`, `" \| "`, `` `branch` ``, `" \| "`, the emoji, a space and the count, `" \| "`, `(status)`, then `" \n\n"`, with no field escaped |
| `GitlabSync.RenderBlockExample` | notes/gitlab/notes.ts:15-22 | any merge request titled "Fix" with URL `x/1`, branch `fix`, two comments and status `mergeable` renders as exactly ``>Fix \n [View](x/1) \| `fix` \| 💭 2 \| (mergeable) \n\n``, whatever its other fields |
| `GitlabSync.NoteTextSnoc` | notes/gitlab/notes.ts:34 | writing one more merge request adds exactly its block at the end of the note text |
| `GitlabSync.NoteTextEmptyIff` | notes/gitlab/notes.ts:33-34 | the note text is empty exactly when no merge request is written (no block is empty) |
| `GitlabSync.NonDrafts` | notes/gitlab/notes.ts:31 | the filter keeps every non-draft as often as it occurs and no draft at all, and never grows the list |
| `GitlabSync.NonDraftsSnoc` | notes/gitlab/notes.ts:31 | the filter keeps order: one more merge request at the end is kept at the end of the filtered list, unless it is a draft |
| `GitlabSync.NonDraftsOfPermutation` | notes/gitlab/notes.ts:29-31 | filtering after a reordering keeps the same merge requests, as often, as filtering the fetched list |
| `GitlabSync.NonDraftsEmptyIff` | notes/gitlab/notes.ts:31 | the filter leaves nothing exactly when every merge request is a draft |
| `GitlabSync.AllDraftsOfPermutation` | notes/gitlab/notes.ts:29-31 | after a reordering, the filter leaves nothing exactly when every fetched merge request is a draft |
| `GitlabSync.SortComparatorInconsistent` | notes/gitlab/notes.ts:30 | the one-argument comparator says "after" for both orders of two items with positive project ids, so it is no ordering |
| `GitlabSync.EngineSort` | notes/gitlab/notes.ts:38-40 | the sort returns the same merge requests, each as often as fetched, and the same number of them; no order is promised |
| `GitlabSync.NotesAreDistinct` | notes/gitlab/notes.ts:33-42 | in any folder, the review-requests note and the merge-requests note are different paths |
| `GitlabSync.GitlabNotes.constructor` | notes/gitlab/notes.ts:9-12 | the GitLab notes write through a note store on the given vault and folder |
| `GitlabSync.GitlabNotes.AppendMrNote` | notes/gitlab/notes.ts:14-26 | one merge request's block is appended to the file; nothing else changes |
| `GitlabSync.GitlabNotes.AppendMrNotes` | notes/gitlab/notes.ts:34 | one append per merge request in list order (each step is `AppendedAll` of the blocks so far): the file gains the concatenation of their blocks; nothing else changes |
| `GitlabSync.GitlabNotes.WriteNote` | notes/gitlab/notes.ts:33-34 | resetting a note and appending the blocks leaves the note holding exactly the blocks, whatever it held before; no other file changes |
| `GitlabSync.GitlabNotes.SaveReviewRequest` | notes/gitlab/notes.ts:28-35 | the note "Gitlab - Review Requests" ends up holding exactly one block per non-draft fetched merge request (as often as fetched, in the order written) and none for drafts; no other file changes; it is `""` exactly when every fetched request is a draft (or none was fetched) |
| `GitlabSync.GitlabNotes.SaveMergeRequest` | notes/gitlab/notes.ts:37-44 | the note "Gitlab - Merge Requests" ends up holding exactly one block per fetched merge request, unfiltered, in the order written; no other file changes; it is `""` exactly when nothing was fetched |

## Left out

- The GitLab HTTP client (`notes/gitlab/api.ts`) is not part of this model. The fetched list is a parameter of each save. Its promise never rejects, so a failed request leaves the note untouched because the save never continues; there is no error path to model.
- The plugin host (`main.ts`) is not part of this model. That covers the ribbon icon, commands, the modal, the settings tab, notices, the settings blob and its `parseInt`, and the interval timer.
- Asynchrony is not modelled. `emptyFile` and `appendToFile` do not await the vault, `requests.map` awaits nothing, and a timer run can overlap a manual run. The model runs each save as a reset followed by in-order appends, with no interleaving.
- `GitlabSync.EngineSort`: it does not fix the order `Array.prototype.sort` produces with the inconsistent comparator, because that order depends on the JavaScript engine. Only the permutation is stated. For the same reason, running a save twice on the same list is not claimed to give byte-identical notes.
- `NoteStore.Notes.EmptyFile` and `NoteStore.Notes.AppendToFile` require that the file exists, because an Obsidian file handle only stands for a file in the vault. Vault failures (permissions, missing folder) are not modelled.
- Reading fields back from a rendered block is not modelled. The title is inserted without escaping, so a title containing `" \n "` or `" | "` makes a block ambiguous. The model proves the exact format instead.
- `console.log` calls, and the record fields the renderer never reads (`description`, `state`), are carried without meaning.
- `Text.NatToString`: it matches `${n}` for counts below 10^21. JavaScript's exponent form (`1e+21`) and its loss of precision above 2^53 are not modelled; comment counts never get near them.
- JavaScript values that break the record's declared types are out of scope: an `undefined` field, or a fractional or negative `user_notes_count`. The count is a `nat`.
