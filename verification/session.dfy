/**
 * The session as the pages see it through the authentication context: the
 * decoded token payload of the signed-in user, if any. The context itself
 * (its `login`, `logout` and start-up check) is not part of this model.
 */
module Session {

  /**
   * The claims a decoded access token carries. The map stands for the
   * claims object; the model never reads it.
   */
  datatype User = User(claims: map<string, string>)
}
