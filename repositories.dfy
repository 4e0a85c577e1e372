/** Opening the list of the user's GitHub repositories. */
module Repositories {
  import opened Wrappers
  import opened TuiModel
  import opened Messages

  /** `ShowRepositoryList`: on success the list is replaced, the first entry
      selected and the list shown with the message cleared; on failure only
      the message changes. The cursor is never touched. */
  method ShowRepositoryList(m: Model, env: Env) returns (r: Model, calls: seq<Call>)
    requires WellFormed(m)
    ensures WellFormed(r)
    ensures calls == [ListRepositories]
    ensures env.repositories.Err? ==>
      r == m.(message := "Error loading repositories: " + env.repositories.error, messageType := Error)
    ensures env.repositories.Ok? ==>
      r == m.(repositories := env.repositories.value, selectedRepoIndex := 0,
              currentView := RepositoryListView, message := "")
    ensures r.cursor == m.cursor
  {
    calls := [ListRepositories];
    if env.repositories.Err? {
      r := m.(message := "Error loading repositories: " + env.repositories.error, messageType := Error);
      return;
    }
    r := m.(repositories := env.repositories.value, selectedRepoIndex := 0,
            currentView := RepositoryListView, message := "");
  }
}
