/** src/receiverSerial.cpp, namespace ReceiverSerial: reads serial characters into
  * `receivedString` up to and including the first '\n' and leaves the rest of the input unread.
  * The serial port is modelled as the string of characters available; `updateReceive` returns how
  * many of them it consumed. */
module ReceiverSerial {

  const END_PACKET := '\n'
  const MAX_LENGTH_PACKET := 200

  class SerialReceiver {
    var receivedString: string
    var requestACK: bool

    /** `init`: acknowledge mode off (the global string starts empty). */
    constructor ()
      ensures receivedString == "" && !requestACK
    {
      receivedString := "";
      requestACK := false;
    }

    method Init()
      modifies this`requestACK
      ensures !requestACK
    {
      SetAckMode(false);
    }

    method SetAckMode(mode: bool)
      modifies this`requestACK
      ensures requestACK == mode
    {
      requestACK := mode;
    }

    function GetAckMode(): (mode: bool)
      reads this
      ensures mode == requestACK
    {
      requestACK
    }

    /** `updateReceive`: true right after appending a '\n' (which is kept in the buffer);
      * false when the input runs out first. */
    method UpdateReceive(input: string) returns (packetComplete: bool, consumed: nat)
      modifies this`receivedString
      ensures consumed <= |input|
      ensures receivedString == old(receivedString) + input[..consumed]
      ensures packetComplete <==> END_PACKET in input
      ensures packetComplete ==> 0 < consumed && input[consumed - 1] == END_PACKET
                                 && END_PACKET !in input[..consumed - 1]
      ensures !packetComplete ==> consumed == |input|
    {
      consumed := 0;
      while consumed < |input|
        invariant consumed <= |input|
        invariant receivedString == old(receivedString) + input[..consumed]
        invariant END_PACKET !in input[..consumed]
      {
        var inChar := input[consumed];
        receivedString := receivedString + [inChar];
        assert input[..consumed + 1] == input[..consumed] + [inChar];
        consumed := consumed + 1;
        if inChar == END_PACKET {
          packetComplete := true;
          return;
        }
      }
      assert input[..consumed] == input;
      packetComplete := false;
    }

    /** `useReceivedString`: returns the buffer and empties it. */
    method UseReceivedString() returns (s: string)
      modifies this`receivedString
      ensures s == old(receivedString) && receivedString == ""
    {
      s := receivedString;
      receivedString := "";
    }
  }
}
