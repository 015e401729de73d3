/** The work product the agents share (models/agents/agent_traits.rs). */
module AgentTraits {
  import opened Wrappers

  /** What the project needs, as decoded from the model's answer. */
  datatype ProjectScope = ProjectScope(
    isCrudRequired: bool,
    isUserLoginAndLogout: bool,
    isExternalUrlsRequired: bool)

  /** One REST endpoint of a later pipeline stage; its JSON values are kept as JSON text. */
  datatype RouteObject = RouteObject(
    isRouteDynamic: string,
    httpMethod: string,
    requestBody: string,
    response: string,
    route: string)

  /** The fact sheet an agent updates in place during a run. */
  class FactSheet {
    var projectDescription: string
    var projectScope: Option<ProjectScope>
    var externalUrls: Option<seq<string>>
    var backendCode: Option<string>
    var apiEndpointSchema: Option<seq<RouteObject>>

    /** A fact sheet as a run starts: only the description is known. */
    constructor (projectDescription: string)
      ensures this.projectDescription == projectDescription
      ensures projectScope == None && externalUrls == None
      ensures backendCode == None && apiEndpointSchema == None
    {
      this.projectDescription := projectDescription;
      projectScope := None;
      externalUrls := None;
      backendCode := None;
      apiEndpointSchema := None;
    }
  }
}
