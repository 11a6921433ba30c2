/** A dispatch token: minted once for every request to judge a submission. */
module Tokens {
  type Token = nat
}
