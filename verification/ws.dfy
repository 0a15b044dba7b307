/**
 * The two types of the `ws` crate that the core passes around without looking inside
 * (the connection handle `Sender` and the frame `Message`), and the record of one send
 * of a frame through a handle.
 */
module Ws {
  import opened Wrappers

  /**
   * A `ws::Sender`: a handle on one live connection. Cloning a handle yields another
   * reference to the same connection, so clones are equal values here.
   */
  datatype Handle = Handle(connection: nat)

  /** A `ws::Message` frame: UTF-8 text or raw bytes. */
  datatype Message = Text(text: string) | Binary(data: seq<bv8>)

  /**
   * UTF-8 decoding of a byte string: the text the bytes encode, or `None` when they are not
   * valid UTF-8. The decoder itself is not part of this model.
   */
  type Utf8Decoder = seq<bv8> -> Option<string>

  /**
   * `m.as_text().unwrap_or("")`: the text of a text frame; for a binary frame, the text its
   * bytes decode to, or the empty string when they are not valid UTF-8.
   */
  function TextOrEmpty(m: Message, utf8: Utf8Decoder): (r: string)
    ensures m.Text? ==> r == m.text
    ensures m.Binary? && utf8(m.data).Some? ==> r == utf8(m.data).value
    ensures m.Binary? && utf8(m.data).None? ==> r == ""
  {
    match m
    case Text(s) => s
    case Binary(data) => utf8(data).GetOr("")
  }

  /** One attempt to send `message` through the handle `to`; its success is not observed. */
  datatype Delivery = Delivery(to: Handle, message: Message)
}
