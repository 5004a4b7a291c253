/** Values shared by the coordinator and the client: the wallet's records
    (`wallet.TxRecipient`, `wallet.Transaction`, `funder.FundingInfo`), the
    wire records of package `multijoin`, and the results of the decoders the
    handlers call. */
module Types {

  datatype Option<T> = None | Some(value: T)

  /** One octet of a serialized transaction. */
  newtype byte = x: int | 0 <= x < 256

  /** The text of a Go `error`; a decoder never reports an empty one. */
  type ErrorText = s: string | |s| > 0 witness "error"

  /** A requested payment: an address and an amount in satoshi. */
  datatype TxRecipient = TxRecipient(address: string, amount: int)

  /** A spendable input a participant contributes; its layout belongs to the wallet. */
  datatype Utxo = Utxo(outpoint: string)

  /** One participant's funding request as the coordinator stores it. */
  datatype FundingInfo = FundingInfo(recipients: seq<TxRecipient>, utxos: seq<Utxo>)

  /** The shared transaction record of a round: the working (partially signed)
      bytes, the final signed bytes and the final transaction id. */
  datatype Transaction = Transaction(unsigned: seq<byte>, signed: seq<byte>, txId: string)

  /** The record `NewJoinQueue` allocates: every field empty. */
  const EmptyTransaction := Transaction([], [], "")

  /** A transaction output: its locking script and its value in satoshi. */
  datatype TxOut = TxOut(pkScript: seq<byte>, value: int)

  /** The outcome of decoding a JSON request body. */
  datatype Decoded<T> = Decoded(value: T) | DecodeError(message: ErrorText)

  /** The pair `strconv.ParseInt` returns: the value and the error text
      ("" when parsing succeeded). */
  datatype ParsedInt = ParsedInt(value: int, err: string)

  datatype JoinStartResponseData = JoinStartResponseData(message: string, id: int, pid: int)

  datatype JoinStartResponse = JoinStartResponse(response: JoinStartResponseData, error: string)

  /** The reply to a status poll; an absent draft is the empty byte sequence. */
  datatype JoinStatusResponse = JoinStatusResponse(tx: seq<byte>, error: string)

  /** A signed draft as a participant submits it: hex text, round id, participant id. */
  datatype TransactionSubmission = TransactionSubmission(tx: string, id: int, pid: int)

  datatype TxResponse = TxResponse(signed: seq<byte>, txId: string)

  datatype JoinUpdateResponse = JoinUpdateResponse(response: TxResponse, error: string)
}
