/**
 * The field validators and the redirect allow-list of `app/utils/helpers.ts`.
 * A validator returns `None` for a valid field and `Some(message)` otherwise.
 */
module Helpers {
  import opened Wrappers
  import opened JsValues

  const Required := "Required"
  const JokeContentTooShort := "That joke is too short"
  const JokeNameTooShort := "That joke's name is too short"
  const UsernameTooShort := "Usernames must be at least 3 characters long"
  const PasswordTooShort := "Passwords must be at least 6 characters long"

  const JokeContentMinLength := 10
  const JokeNameMinLength := 3
  const UsernameMinLength := 3
  const PasswordMinLength := 6

  /**
   * The shape all four validators share: an empty string (falsy in JavaScript)
   * is `Required`; a string whose `length` is below `minLength` gets `tooShort`.
   */
  function CheckField(value: string, minLength: nat, tooShort: string): (r: Option<string>)
    requires minLength >= 1
    ensures value == [] ==> r == Some(Required)
    ensures value != [] && JsLength(value) < minLength ==> r == Some(tooShort)
    ensures r == None <==> JsLength(value) >= minLength
  {
    if value == [] then Some(Required)
    else if JsLength(value) < minLength then Some(tooShort)
    else None
  }

  function ValidateJokeContent(content: string): (r: Option<string>)
    ensures r == None <==> JsLength(content) >= JokeContentMinLength
    ensures r == Some(Required) <==> content == []
    ensures r == Some(JokeContentTooShort) <==> 0 < JsLength(content) < JokeContentMinLength
    ensures Truthy(r) <==> r.Some?
  {
    CheckField(content, JokeContentMinLength, JokeContentTooShort)
  }

  function ValidateJokeName(name: string): (r: Option<string>)
    ensures r == None <==> JsLength(name) >= JokeNameMinLength
    ensures r == Some(Required) <==> name == []
    ensures r == Some(JokeNameTooShort) <==> 0 < JsLength(name) < JokeNameMinLength
    ensures Truthy(r) <==> r.Some?
  {
    CheckField(name, JokeNameMinLength, JokeNameTooShort)
  }

  function ValidateUsername(username: string): (r: Option<string>)
    ensures r == None <==> JsLength(username) >= UsernameMinLength
    ensures r == Some(Required) <==> username == []
    ensures r == Some(UsernameTooShort) <==> 0 < JsLength(username) < UsernameMinLength
    ensures Truthy(r) <==> r.Some?
  {
    CheckField(username, UsernameMinLength, UsernameTooShort)
  }

  function ValidatePassword(password: string): (r: Option<string>)
    ensures r == None <==> JsLength(password) >= PasswordMinLength
    ensures r == Some(Required) <==> password == []
    ensures r == Some(PasswordTooShort) <==> 0 < JsLength(password) < PasswordMinLength
    ensures Truthy(r) <==> r.Some?
  {
    CheckField(password, PasswordMinLength, PasswordTooShort)
  }

  /** The redirect targets a navigation may use; the first one is the fallback. */
  const ValidUrls: seq<string> := ["/jokes", "/", "https://remix.run"]

  function ValidateUrl(url: string): (r: string)
    ensures r in ValidUrls
    ensures url in ValidUrls ==> r == url
    ensures url !in ValidUrls ==> r == "/jokes"
  {
    if Includes(ValidUrls, url) then url else ValidUrls[0]
  }

  /** Sanitising a redirect target twice changes nothing more. */
  lemma ValidateUrlIdempotent(url: string)
    ensures ValidateUrl(ValidateUrl(url)) == ValidateUrl(url)
  {
  }

  /** A scheme-relative address to another host falls back to the joke list. */
  lemma ValidateUrlRejectsSchemeRelative()
    ensures ValidateUrl("//evil.com") == "/jokes"
  {
  }
}
