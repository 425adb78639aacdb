/** A request line as the server sees it once parsed: a command name and
    its arguments, plus the ten names the protocol knows. */
module Commands {

  datatype Command = Command(name: string, arguments: seq<string>)

  const SignUp: string := "signup"
  const LogIn: string := "login"
  const List: string := "list"
  const Deposit: string := "deposit"
  const Buy: string := "buy"
  const Sell: string := "sell"
  const Summary: string := "summary"
  const Trends: string := "trends"
  const LogOut: string := "logout"
  const Exit: string := "exit"

  /** The shared command with no name and no arguments. */
  const EmptyCommand: Command := Command("", [])

  function Empty(): (c: Command)
    ensures c.name == "" && c.arguments == []
  {
    EmptyCommand
  }

  function KnownNames(): seq<string> {
    [SignUp, LogIn, List, Deposit, Buy, Sell, Summary, Trends, LogOut, Exit]
  }

  predicate IsKnown(name: string) {
    name in KnownNames()
  }

  /** Ten names, pairwise distinct, none of them the empty command's. */
  lemma KnownNamesDistinct()
    ensures |KnownNames()| == 10
    ensures forall i, j :: 0 <= i < j < |KnownNames()| ==> KnownNames()[i] != KnownNames()[j]
    ensures !IsKnown(Empty().name)
  {
  }
}
