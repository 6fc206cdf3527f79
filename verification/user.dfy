/** The `full_name` property of the user record in
    `MarketPulsePro/src/models/user.py`. Text columns are nullable, so each
    name is optional; `None` and "" are both falsy. */
module User {
  import opened Wrappers
  import Text

  predicate Truthy(s: Option<string>)
  {
    s.Some? && s.value != ""
  }

  /** First and last name joined by a space when both are set; otherwise the
      first name, the username, or the decimal Telegram id, in that order. */
  function FullName(first: Option<string>, last: Option<string>, username: Option<string>, telegramId: int): (r: string)
    ensures r != ""
    ensures Truthy(first) && Truthy(last) ==> r == first.value + " " + last.value
    ensures Truthy(first) && !Truthy(last) ==> r == first.value
    ensures !Truthy(first) && Truthy(username) ==> r == username.value
    ensures !Truthy(first) && !Truthy(username) ==> r == Text.IntToString(telegramId)
  {
    if Truthy(first) && Truthy(last) then first.value + " " + last.value
    else if Truthy(first) then first.value
    else if Truthy(username) then username.value
    else Text.IntToString(telegramId)
  }

  /** A user with neither first name nor username is named by the Telegram
      id, which can be read back from the name, so two such users with
      different ids never share a name. */
  lemma NameFallsBackToId(last: Option<string>, telegramId: int, otherLast: Option<string>, otherId: int)
    ensures Text.ParseDecimal(FullName(None, last, None, telegramId)) == Some(telegramId)
    ensures FullName(None, last, None, telegramId) == FullName(None, otherLast, None, otherId) ==> telegramId == otherId
  {
    Text.IntToStringRoundTrip(telegramId);
    Text.IntToStringRoundTrip(otherId);
  }

  /** The full name always begins with the first name when there is one. */
  lemma NameStartsWithFirst(first: Option<string>, last: Option<string>, username: Option<string>, telegramId: int)
    requires Truthy(first)
    ensures first.value <= FullName(first, last, username, telegramId)
  {
    if Truthy(last) {
      assert FullName(first, last, username, telegramId) == first.value + (" " + last.value);
    }
  }
}
