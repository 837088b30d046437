/** The records the core exchanges with the two remote services. */
module Types {

  /** A Jira project as returned by the project listing. */
  datatype JiraProject = JiraProject(key: string, name: string, id: string)

  /**
   * An autolink registered on the GitHub repository: `key_prefix` and
   * `url_template` of the REST payload. The `is_alphanumeric` flag is not
   * read by the core and is not modelled.
   */
  datatype GithubAutolink = GithubAutolink(id: int, keyPrefix: string, urlTemplate: string)
}
