/** src/dataCom.cpp, namespace Com::ReceiverSerial: serial characters are accumulated in
  * `receivedMessage` and every complete line is handed to the command parser.
  * The serial port is modelled as the string of characters available when `receive` runs; the
  * frames handed to `Parser::parseStringMessage` are returned, in order, instead of being parsed here. */
module DataCom {

  const END_MESSAGE_SERIAL := '\n'
  const MAX_LENGTH_MESSAGE := 200

  /** A frame is a line: it ends with the terminator and contains no other one. */
  predicate IsFrame(f: string)
  {
    |f| > 0 && f[|f| - 1] == END_MESSAGE_SERIAL && END_MESSAGE_SERIAL !in f[..|f| - 1]
  }

  function Concat(frames: seq<string>): (s: string)
    ensures |frames| == 1 ==> s == frames[0]
  {
    if frames == [] then [] else Concat(frames[..|frames| - 1]) + frames[|frames| - 1]
  }

  class ComReceiver {
    var receivedMessage: string
    var requestACK: bool

    /** Between calls the buffer holds an incomplete line only. */
    ghost predicate Valid()
      reads this
    {
      END_MESSAGE_SERIAL !in receivedMessage
    }

    /** `init`: empty buffer, acknowledge mode off. */
    constructor ()
      ensures Valid() && receivedMessage == "" && !requestACK
    {
      receivedMessage := "";
      requestACK := false;
    }

    method Init()
      modifies this
      ensures Valid() && receivedMessage == "" && !requestACK
    {
      receivedMessage := "";
      SetAckMode(false);
    }

    method SetAckMode(mode: bool)
      modifies this`requestACK
      ensures requestACK == mode
    {
      requestACK := mode;
    }

    function GetAckMode(): (mode: bool)
      reads this
      ensures mode == requestACK
    {
      requestACK
    }

    /** `receive`: appends every available character; on '\n' the buffer, terminator included, is
      * handed to the parser and emptied. */
    method Receive(input: string) returns (frames: seq<string>)
      requires Valid()
      modifies this`receivedMessage
      ensures Valid()
      ensures Concat(frames) + receivedMessage == old(receivedMessage) + input
      ensures forall k :: 0 <= k < |frames| ==> IsFrame(frames[k])
    {
      frames := [];
      var i := 0;
      while i < |input|
        invariant i <= |input|
        invariant END_MESSAGE_SERIAL !in receivedMessage
        invariant Concat(frames) + receivedMessage == old(receivedMessage) + input[..i]
        invariant forall k :: 0 <= k < |frames| ==> IsFrame(frames[k])
      {
        var inChar := input[i];
        ghost var prev := receivedMessage;
        receivedMessage := receivedMessage + [inChar];
        assert input[..i + 1] == input[..i] + [input[i]];
        assert Concat(frames) + receivedMessage == (Concat(frames) + prev) + [inChar];
        if inChar == END_MESSAGE_SERIAL {
          assert receivedMessage[..|receivedMessage| - 1] == prev;
          ConcatPush(frames, receivedMessage);
          frames := frames + [receivedMessage];
          receivedMessage := "";
        }
        i := i + 1;
      }
      assert input[..i] == input;
    }
  }

  lemma ConcatPush(frames: seq<string>, f: string)
    ensures Concat(frames + [f]) == Concat(frames) + f
  {
    assert (frames + [f])[..|frames|] == frames;
  }
}
