/** `HarvestAuthenticationError`: raised for HTTP 401 and 403 responses. */
module Exceptions {
  import opened Wrappers
  import Strings

  /** The exception's fields and its text (`str(exc)`). */
  datatype AuthenticationError = AuthenticationError(
    statusCode: int,
    responseBody: Option<string>,
    text: string)

  /** "Unauthorized" for 401, "Forbidden" for every other status. */
  function ErrorType(statusCode: int): string
  {
    if statusCode == 401 then "Unauthorized" else "Forbidden"
  }

  /** The constructor: stores the status and the body as given and formats
      `"<type> (<status>): <message>"`. */
  function NewAuthenticationError(statusCode: int, message: string, responseBody: Option<string> := None)
    : (e: AuthenticationError)
    ensures e.statusCode == statusCode && e.responseBody == responseBody
    ensures e.text == ErrorType(statusCode) + " (" + Strings.IntToString(statusCode) + "): " + message
  {
    AuthenticationError(statusCode, responseBody,
      ErrorType(statusCode) + " (" + Strings.IntToString(statusCode) + "): " + message)
  }

  /** The text names the kind of failure first and ends with the message, so it
      always contains the message; the kind tells 401 from 403 apart. */
  lemma TextContainsMessage(statusCode: int, message: string, responseBody: Option<string>)
    ensures var e := NewAuthenticationError(statusCode, message, responseBody);
            |e.text| >= |message| && e.text[|e.text| - |message|..] == message &&
            Strings.Contains(e.text, message) &&
            (statusCode == 401 <==> e.text[..12] == "Unauthorized")
  {
    var e := NewAuthenticationError(statusCode, message, responseBody);
    var head := ErrorType(statusCode) + " (" + Strings.IntToString(statusCode) + "): ";
    assert e.text == head + message;
    assert e.text[|head|..] == message;
    assert Strings.OccursAt(e.text, message, |head|);
    if statusCode != 401 {
      assert e.text[0] == 'F';
      assert e.text[..12][0] == 'F';
    }
  }
}
