/** The login screen (src/screens/LoginScreen.tsx): any non-blank credentials are accepted. */
module LoginScreen {
  import opened JsText

  /** The two effects `handleLogin` can have. */
  datatype LoginOutcome =
    | ReplaceWithMain   // navigation.replace('Main')
    | AlertError        // the "Inserisci username e password" alert; nothing else changes

  /**
   * `handleLogin`: access is granted exactly when both the username and the
   * password contain a non-whitespace character. A blank username is refused
   * whatever the password, and a blank password whatever the username.
   */
  function HandleLogin(username: string, password: string): (o: LoginOutcome)
    ensures o == ReplaceWithMain <==> !AllWhitespace(username) && !AllWhitespace(password)
    ensures o == AlertError <==> AllWhitespace(username) || AllWhitespace(password)
  {
    if Trim(username) != "" && Trim(password) != "" then ReplaceWithMain else AlertError
  }
}
