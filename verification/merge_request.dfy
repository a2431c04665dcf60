/** The merge-request record the GitLab API returns, as the plugin reads it. */
module MergeRequests {

  /**
   * One merge request. `description` and `state` are carried but never read by
   * the note code; `userNotesCount` is the number of comments, never negative.
   */
  datatype MergeRequest = MergeRequest(
    title: string,
    description: string,
    userNotesCount: nat,
    sourceBranch: string,
    state: string,
    webUrl: string,
    detailedMergeStatus: string,
    projectId: int,
    draft: bool
  )
}
