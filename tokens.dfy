/** The token source the calculator reads from: a finished token list, a
    pushback stack read before it, and the empty string at end of input. */
module Tokens {

  /** What reading yields once the input is exhausted. */
  const EndOfInput: string := ""

  /** Reading one token from the unread remainder of a stream: its head, or the
      end-of-input token, which leaves an exhausted stream as it is. */
  function Next(rest: seq<string>): (r: (string, seq<string>))
    ensures rest == [] ==> r == (EndOfInput, [])
    ensures rest != [] ==> [r.0] + r.1 == rest
  {
    if rest == [] then (EndOfInput, []) else (rest[0], rest[1..])
  }

  class TokenStream {
    /** The tokens the tokenizer produced, and how many of them were read. */
    var tokens: seq<string>
    var pos: nat
    /** Tokens pushed back, most recent first; they are read before `tokens[pos..]`. */
    var pushback: seq<string>

    ghost predicate Valid()
      reads this
    {
      pos <= |tokens|
    }

    /** Everything the stream will still yield before end of input. */
    ghost function Rest(): seq<string>
      reads this
      requires Valid()
    {
      pushback + tokens[pos..]
    }

    constructor (tokens: seq<string>)
      ensures Valid() && Rest() == tokens
    {
      this.tokens := tokens;
      pos := 0;
      pushback := [];
    }

    method GetToken() returns (token: string)
      requires Valid()
      modifies this
      ensures Valid()
      ensures (token, Rest()) == Next(old(Rest()))
    {
      if pushback != [] {
        token := pushback[0];
        pushback := pushback[1..];
        assert old(Rest()) == [token] + Rest();
      } else if pos < |tokens| {
        token := tokens[pos];
        pos := pos + 1;
        assert old(Rest()) == [token] + Rest() by {
          assert old(Rest()) == tokens[pos - 1..];
          assert Rest() == tokens[pos..];
        }
      } else {
        token := EndOfInput;
        assert Rest() == [];
      }
    }

    method PushToken(token: string)
      requires Valid()
      modifies this
      ensures Valid()
      ensures Rest() == [token] + old(Rest())
    {
      pushback := [token] + pushback;
    }
  }
}
