/** The client's authentication hook: the profile fields it derives from a Google account for the
    login request, and the `user`/`isLoading` state that the session check, the login and the logout
    set. */
module AuthClient {
  import opened Wrappers
  import opened Text
  import Routes

  /** What the model needs of a Firebase user; every field but the id may be `null`. */
  datatype GoogleAccount = GoogleAccount(
    uid: string,
    email: Option<string>,
    displayName: Option<string>,
    photoURL: Option<string>)

  /** A JavaScript string that is present and not empty. */
  predicate Present(s: Option<string>)
  {
    s.Some? && s.value != ""
  }

  /** `displayName || email?.split('@')[0] || ''`: the display name when there is one, else the text
      of the email before its first '@' (all of it without an '@'), else the empty string. */
  function Username(displayName: Option<string>, email: Option<string>): (name: string)
    ensures Present(displayName) ==> name == displayName.value
    ensures !Present(displayName) && email.None? ==> name == ""
    ensures !Present(displayName) && email.Some? ==>
      && name <= email.value && '@' !in name
      && (|name| < |email.value| ==> email.value[|name|] == '@')
  {
    if Present(displayName) then displayName.value
    else if email.None? then ""
    else
      SplitFirstPiece(email.value, '@');
      Split(email.value, '@')[0]
  }

  /** `displayName?.split(' ')[0] || ''`: the display name up to its first space. */
  function FirstName(displayName: Option<string>): (name: string)
    ensures displayName.None? ==> name == ""
    ensures displayName.Some? ==>
      && name <= displayName.value && ' ' !in name
      && (|name| < |displayName.value| ==> displayName.value[|name|] == ' ')
  {
    if displayName.None? then ""
    else
      SplitFirstPiece(displayName.value, ' ');
      Split(displayName.value, ' ')[0]
  }

  /** `displayName?.split(' ').slice(1).join(' ') || ''`: the words after the first, space-separated. */
  function LastName(displayName: Option<string>): (name: string)
    ensures displayName.None? || ' ' !in displayName.value ==> name == ""
  {
    if displayName.None? then ""
    else
      var words := Split(displayName.value, ' ');
      Join(words[1..], " ")
  }

  /** With a space in the display name, the first name, a space and the last name give it back. */
  lemma NamesRebuildDisplayName(displayName: string)
    requires ' ' in displayName
    ensures FirstName(Some(displayName)) + " " + LastName(Some(displayName)) == displayName
  {
    var words := Split(displayName, ' ');
    assert |words| >= 2;
    assert Join(words, " ") == words[0] + " " + Join(words[1..], " ");
    JoinSplit(displayName, ' ');
  }

  /** The body posted to the login route. A missing email is sent as `null`; the server's body
      requires a string, so it is modelled as the empty string. */
  function LoginRequest(account: GoogleAccount): (body: Routes.LoginBody)
    ensures body.googleId == account.uid && body.email == account.email.GetOr("")
    ensures body.username == Username(account.displayName, account.email)
    ensures body.firstName == Some(FirstName(account.displayName))
    ensures body.lastName == Some(LastName(account.displayName))
    ensures body.profilePicture == Some(if Present(account.photoURL) then account.photoURL.value else "")
  {
    Routes.LoginBody(account.uid, account.email.GetOr(""), Username(account.displayName, account.email),
      Some(FirstName(account.displayName)), Some(LastName(account.displayName)),
      Some(if Present(account.photoURL) then account.photoURL.value else ""))
  }

  /** An account with a display name logs in under that name, and its two names together are the
      display name when it has a space in it. */
  lemma LoginNamesFollowDisplayName(account: GoogleAccount)
    requires Present(account.displayName) && ' ' in account.displayName.value
    ensures var body := LoginRequest(account);
      body.username == account.displayName.value
      && body.firstName.value + " " + body.lastName.value == account.displayName.value
  {
    NamesRebuildDisplayName(account.displayName.value);
  }

  /** How a request made by the hook ends: it throws, or a response arrives. */
  datatype Reply = Threw | Response(ok: bool, body: Routes.UserView)

  class AuthState {
    var user: Option<Routes.UserView>
    var isLoading: bool
    /** The keys of the queries the client has cached. */
    var cachedQueries: set<string>

    /** No user yet, and loading until the first session check ends. */
    constructor()
      ensures user.None? && isLoading && cachedQueries == {}
    {
      user := None;
      isLoading := true;
      cachedQueries := {};
    }

    /** `checkSession`: the user becomes the body of an ok response and is cleared otherwise, also
        when the request throws; loading ends either way. */
    method CheckSession(reply: Reply)
      modifies this`user, this`isLoading
      ensures !isLoading
      ensures user.Some? <==> reply.Response? && reply.ok
      ensures reply.Response? && reply.ok ==> user == Some(reply.body)
    {
      isLoading := true;
      if reply.Response? && reply.ok {
        user := Some(reply.body);
      } else {
        user := None;
      }
      isLoading := false;
    }

    /** `loginWithGoogle`: when the sign-in yields an account (`account`), its fields are posted
        (`request`); the user becomes the server's answer (`reply`, `None` when the request fails),
        and stays as it was when the sign-in or the request fails. Loading ends either way. */
    method LoginWithGoogle(account: Option<GoogleAccount>, reply: Option<Routes.UserView>)
      returns (request: Option<Routes.LoginBody>)
      modifies this`user, this`isLoading
      ensures !isLoading
      ensures account.None? ==> request.None? && user == old(user)
      ensures account.Some? ==> request == Some(LoginRequest(account.value))
      ensures account.Some? && reply.Some? ==> user == reply
      ensures account.Some? && reply.None? ==> user == old(user)
    {
      isLoading := true;
      if account.None? {
        isLoading := false;
        return None;
      }
      request := Some(LoginRequest(account.value));
      if reply.Some? {
        user := reply;
      }
      isLoading := false;
    }

    /** `logout`: after a successful sign-out the user is cleared and the query cache emptied; a
        failed sign-out changes neither. Loading ends either way. */
    method Logout(signOutFails: bool)
      modifies this`user, this`isLoading, this`cachedQueries
      ensures !isLoading
      ensures !signOutFails ==> user.None? && cachedQueries == {}
      ensures signOutFails ==> user == old(user) && cachedQueries == old(cachedQueries)
    {
      isLoading := true;
      if !signOutFails {
        user := None;
        cachedQueries := {};
      }
      isLoading := false;
    }
  }
}
