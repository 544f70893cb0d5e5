/** The login screen (src/components/Auth.tsx): the country picker's filter and
    the phone, code and password steps. Each submit handler is two steps here: the
    common start (loading on, error cleared) and the finish once the backend call
    settles; the call's outcome is an input. Case folding is ASCII (Common.Lower). */
module Auth {
  import opened Common

  datatype Country = Country(code: string, name: string, flag: string)

  /** A country stays listed when its lowercased name contains the lowercased
      query, or its dialling code contains the query as typed. */
  function Matches(query: string): Country -> bool
  {
    (c: Country) => Contains(Lower(c.name), Lower(query)) || Contains(c.code, query)
  }

  /** `filteredCountries`. */
  function FilterCountries(countries: seq<Country>, query: string): seq<Country>
  {
    Filter(countries, Matches(query))
  }

  /** A country is listed exactly when it is one of the countries and matches. */
  lemma FilterCountriesMember(countries: seq<Country>, query: string, c: Country)
    ensures c in FilterCountries(countries, query) <==>
      c in countries && (Contains(Lower(c.name), Lower(query)) || Contains(c.code, query))
  {
    FilterMember(countries, Matches(query), c);
  }

  /** An empty query lists every country, in order. */
  lemma EmptyQueryListsAll(countries: seq<Country>)
    ensures FilterCountries(countries, "") == countries
  {
    forall c | c in countries
      ensures Matches("")(c)
    {
      ContainsEmpty(c.code);
    }
    FilterAll(countries, Matches(""));
  }

  datatype Step = PhoneStep | CodeStep | PasswordStep

  /** How a backend call settles: it resolves, or it rejects with a string
      (`Some`) or with some other value (`None`). */
  datatype Reply = Resolved | Rejected(message: Option<string>)

  /** The error text of a rejection: the string itself, or the handler's fallback. */
  function ErrorText(message: Option<string>, fallback: string): string
  {
    match message
    case Some(m) => m
    case None => fallback
  }

  /** Whether each step's submit button is disabled. */
  function PhoneSubmitDisabled(loading: bool, phone: string): bool
  {
    loading || phone == ""
  }

  function CodeSubmitDisabled(loading: bool, code: string): bool
  {
    loading || |code| < 5
  }

  function PasswordSubmitDisabled(loading: bool): bool
  {
    loading
  }

  class AuthForm {
    var step: Step
    var phone: string
    var countryCode: string
    var code: string
    var password: string
    var loading: bool
    var error: Option<string>
    var isDropdownOpen: bool
    var searchQuery: string
    /** How often `onLogin` was called. */
    var logins: nat

    constructor ()
      ensures step == PhoneStep && phone == "" && countryCode == "+91" && code == "" && password == ""
      ensures !loading && error == None && !isDropdownOpen && searchQuery == "" && logins == 0
    {
      step := PhoneStep;
      phone := "";
      countryCode := "+91";
      code := "";
      password := "";
      loading := false;
      error := None;
      isDropdownOpen := false;
      searchQuery := "";
      logins := 0;
    }

    /** The current step's submit button is disabled. */
    predicate SubmitDisabled()
      reads this
    {
      match step
      case PhoneStep => PhoneSubmitDisabled(loading, phone)
      case CodeStep => CodeSubmitDisabled(loading, code)
      case PasswordStep => PasswordSubmitDisabled(loading)
    }

    /** The number the phone step sends: the dialling code followed by the phone. */
    function FullPhone(): (r: string)
      reads this
      ensures |r| == |countryCode| + |phone| && r[..|countryCode|] == countryCode && r[|countryCode|..] == phone
    {
      countryCode + phone
    }

    /** Picking a country from the list. */
    method SelectCountry(c: Country)
      modifies this
      ensures countryCode == c.code && !isDropdownOpen && searchQuery == ""
      ensures step == old(step) && phone == old(phone) && code == old(code) && password == old(password)
      ensures loading == old(loading) && error == old(error) && logins == old(logins)
    {
      countryCode := c.code;
      isDropdownOpen := false;
      searchQuery := "";
    }

    /** The start every submit handler shares. */
    method BeginSubmit()
      modifies this
      ensures loading && error == None
      ensures SubmitDisabled()
      ensures step == old(step) && phone == old(phone) && countryCode == old(countryCode)
      ensures code == old(code) && password == old(password) && logins == old(logins)
      ensures isDropdownOpen == old(isDropdownOpen) && searchQuery == old(searchQuery)
    {
      loading := true;
      error := None;
    }

    /** handlePhoneSubmit once `login_start` settles: on to the code step, or an
        error on the phone step. */
    method FinishPhone(reply: Reply)
      modifies this
      ensures !loading
      ensures reply.Resolved? ==> step == CodeStep && error == old(error)
      ensures reply.Rejected? ==> step == old(step) && error == Some(ErrorText(reply.message, "Failed to send code"))
      ensures phone == old(phone) && countryCode == old(countryCode) && code == old(code) && password == old(password)
      ensures logins == old(logins) && isDropdownOpen == old(isDropdownOpen) && searchQuery == old(searchQuery)
    {
      match reply {
        case Resolved =>
          step := CodeStep;
        case Rejected(m) =>
          error := Some(ErrorText(m, "Failed to send code"));
      }
      loading := false;
    }

    /** handleCodeSubmit once `login_complete` settles: a success logs in; a
        rejection mentioning PASSWORD_REQUIRED moves to the password step and sets
        no error; any other rejection sets the error and keeps the step. */
    method FinishCode(reply: Reply)
      modifies this
      ensures !loading
      ensures reply.Resolved? ==> logins == old(logins) + 1 && step == old(step) && error == old(error)
      ensures reply.Rejected? && Contains(ErrorText(reply.message, "Login failed"), "PASSWORD_REQUIRED") ==>
        step == PasswordStep && error == old(error) && logins == old(logins)
      ensures reply.Rejected? && !Contains(ErrorText(reply.message, "Login failed"), "PASSWORD_REQUIRED") ==>
        step == old(step) && error == Some(ErrorText(reply.message, "Login failed")) && logins == old(logins)
      ensures reply == Rejected(None) ==> step == old(step) && error == Some("Login failed")
      ensures phone == old(phone) && countryCode == old(countryCode) && code == old(code) && password == old(password)
      ensures isDropdownOpen == old(isDropdownOpen) && searchQuery == old(searchQuery)
    {
      match reply {
        case Resolved =>
          logins := logins + 1;
        case Rejected(m) =>
          var msg := ErrorText(m, "Login failed");
          if Contains(msg, "PASSWORD_REQUIRED") {
            step := PasswordStep;
          } else {
            error := Some(msg);
          }
      }
      loading := false;
    }

    /** handlePasswordSubmit once `login_complete` settles: a success logs in, a
        rejection sets the error and keeps the step. */
    method FinishPassword(reply: Reply)
      modifies this
      ensures !loading && step == old(step)
      ensures reply.Resolved? ==> logins == old(logins) + 1 && error == old(error)
      ensures reply.Rejected? ==> logins == old(logins) && error == Some(ErrorText(reply.message, "Password incorrect"))
      ensures phone == old(phone) && countryCode == old(countryCode) && code == old(code) && password == old(password)
      ensures isDropdownOpen == old(isDropdownOpen) && searchQuery == old(searchQuery)
    {
      match reply {
        case Resolved =>
          logins := logins + 1;
        case Rejected(m) =>
          error := Some(ErrorText(m, "Password incorrect"));
      }
      loading := false;
    }
  }
}
