/** The request check run before any command: who may issue it (only a
    logged-out client may sign up or log in; only a logged-in one may touch
    a wallet or log out) and how many arguments it takes. The first failing
    rule's fixed message is the answer; unknown names always pass. */
module CommandValidator {
  import opened Results
  import opened JavaText
  import opened Commands

  const LogOutFirst: string := "Log out first"
  const LogInFirst: string := "Log in first"
  const OneArgumentExpected: string := "1 argument expected"

  /** `"%d arguments expected"`. */
  function ArgumentsExpected(n: nat): string {
    NatToString(n) + " arguments expected"
  }

  /** `checkArgumentCount(expected, actual)`. */
  function CheckArgumentCount(expected: nat, actual: nat): (r: Option<string>)
    ensures r == None <==> actual == expected
  {
    if actual == expected then None
    else if expected == 1 then Some(OneArgumentExpected)
    else Some(ArgumentsExpected(expected))
  }

  /** `validate(user, command)`, with the user reduced to whether there is one:
      the rules never look further. */
  function Validate(userPresent: bool, c: Command): (r: Option<string>) {
    var n := |c.arguments|;
    match c.name
    case "signup" => if userPresent then Some(LogOutFirst) else CheckArgumentCount(2, n)
    case "login" => if userPresent then Some(LogOutFirst) else CheckArgumentCount(2, n)
    case "list" => CheckArgumentCount(0, n)
    case "deposit" => if !userPresent then Some(LogInFirst) else CheckArgumentCount(1, n)
    case "buy" => if !userPresent then Some(LogInFirst) else CheckArgumentCount(2, n)
    case "sell" => if !userPresent then Some(LogInFirst) else CheckArgumentCount(1, n)
    case "summary" => if !userPresent then Some(LogInFirst) else CheckArgumentCount(0, n)
    case "trends" => if !userPresent then Some(LogInFirst) else CheckArgumentCount(0, n)
    case "logout" => if !userPresent then Some(LogInFirst) else CheckArgumentCount(0, n)
    case "exit" => CheckArgumentCount(0, n)
    case _ => None
  }

  // ---------------------------------------------------------------------
  // the rule table, stated independently of the switch

  datatype Access = Anyone | LoggedOutOnly | LoggedInOnly

  function AccessRule(name: string): Access {
    if name in [SignUp, LogIn] then LoggedOutOnly
    else if name in [Deposit, Buy, Sell, Summary, Trends, LogOut] then LoggedInOnly
    else Anyone
  }

  function Arity(name: string): nat {
    if name in [SignUp, LogIn, Buy] then 2
    else if name in [Deposit, Sell] then 1
    else 0
  }

  predicate AccessMet(a: Access, userPresent: bool) {
    match a
    case Anyone => true
    case LoggedOutOnly => !userPresent
    case LoggedInOnly => userPresent
  }

  function AccessMessage(a: Access): string {
    if a == LoggedOutOnly then LogOutFirst else LogInFirst
  }

  /** A known command passes exactly when its access rule is met and it has
      exactly its arity in arguments; an unknown one always passes. */
  lemma ValidIff(userPresent: bool, c: Command)
    ensures Validate(userPresent, c) == None <==>
      !IsKnown(c.name)
      || (AccessMet(AccessRule(c.name), userPresent) && |c.arguments| == Arity(c.name))
  {
  }

  /** The table, message for message: an unmet access rule is reported
      before the argument count. */
  lemma ValidateByTable(userPresent: bool, c: Command)
    ensures Validate(userPresent, c) ==
      if !IsKnown(c.name) then None
      else if !AccessMet(AccessRule(c.name), userPresent) then Some(AccessMessage(AccessRule(c.name)))
      else CheckArgumentCount(Arity(c.name), |c.arguments|)
  {
  }

  lemma LoggedInCannotSignUpOrLogIn(c: Command)
    requires c.name == SignUp || c.name == LogIn
    ensures Validate(true, c) == Some(LogOutFirst)
  {
  }

  lemma LoggedOutCannotUseWallet(c: Command)
    requires c.name in [Deposit, Buy, Sell, Summary, Trends, LogOut]
    ensures Validate(false, c) == Some(LogInFirst)
  {
  }

  /** `list` and `exit` look at the argument count only. */
  lemma ListAndExitIgnoreUser(c: Command)
    requires c.name == List || c.name == Exit
    ensures Validate(true, c) == Validate(false, c) == CheckArgumentCount(0, |c.arguments|)
  {
  }

  lemma UnknownAlwaysValid(userPresent: bool, c: Command)
    requires !IsKnown(c.name)
    ensures Validate(userPresent, c) == None
  {
  }

  /** The arity message: exact equality required, "1 argument expected" for
      one and "<n> arguments expected" for any other count, zero included. */
  lemma ArityMessages(expected: nat, actual: nat)
    ensures expected != actual && expected == 1 ==>
      CheckArgumentCount(expected, actual) == Some("1 argument expected")
    ensures expected != actual && expected != 1 ==>
      CheckArgumentCount(expected, actual) == Some(NatToString(expected) + " arguments expected")
  {
  }

  lemma ZeroAndTwoExpected()
    ensures CheckArgumentCount(0, 1) == Some("0 arguments expected")
    ensures CheckArgumentCount(2, 3) == Some("2 arguments expected")
  {
    assert NatToString(0) == "0";
    assert NatToString(2) == "2";
    assert "0" + " arguments expected" == "0 arguments expected";
    assert "2" + " arguments expected" == "2 arguments expected";
  }

  lemma ArityMessageHasSpace(expected: nat, actual: nat)
    requires CheckArgumentCount(expected, actual).Some?
    ensures ' ' in CheckArgumentCount(expected, actual).value
  {
    if expected == 1 {
      assert OneArgumentExpected[1] == ' ';
    } else {
      var d := NatToString(expected);
      assert ArgumentsExpected(expected)[|d|] == ' ';
    }
  }

  /** Every message the validator can produce has a space in it, which the
      server relies on to tell a failed login from a username. */
  lemma MessagesHaveSpace(userPresent: bool, c: Command)
    requires Validate(userPresent, c).Some?
    ensures ' ' in Validate(userPresent, c).value
  {
    ValidateByTable(userPresent, c);
    var a := AccessRule(c.name);
    if !AccessMet(a, userPresent) {
      assert LogOutFirst[3] == ' ' && LogInFirst[3] == ' ';
    } else {
      ArityMessageHasSpace(Arity(c.name), |c.arguments|);
    }
  }
}
