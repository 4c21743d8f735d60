/** Navigation actions as the helpers see them: only an action's `type` is ever inspected. */
module Actions {
  import opened Wrappers

  /** An action object. `actionType` is `None` when the object has no own `type` property. */
  datatype Action = Action(actionType: Option<string>)

  /** The action types of react-navigation's `NavigationActions` that the helpers compare against. */
  const NavigateType: string := "Navigation/NAVIGATE"
  const BackType: string := "Navigation/BACK"
  const InitType: string := "Navigation/INIT"

  /** `NavigationActions.init()`, the action the reducer and the listeners start from. */
  const InitAction: Action := Action(Some(InitType))

  /** JavaScript's `s.startsWith(prefix)`. */
  predicate StartsWith(s: string, prefix: string) {
    |prefix| <= |s| && s[..|prefix|] == prefix
  }

  /** The prefix that marks an action type as a navigation action. */
  const NavigationPrefix: string := "Navigation"
}
