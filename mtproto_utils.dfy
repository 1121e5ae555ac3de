/**
 * Chat-identifier conversion between the Bot API and MTProto
 * (src/app/common/mtproto_utils.py).
 *
 * The Bot API writes a user as its id, a basic group with id `g` as `-g`
 * (`1 <= g <= 999999999999`), and a channel or supergroup with id `c` as
 * `-(1000000000000 + c)`, which prints as "-100" followed by the ten digits of `c`
 * for the channel ids in use. The Python code recognises channels by the printed prefix
 * "-100"; BotApiChatIdToMtprotoAsWritten models that rule, and BotApiChatIdToMtproto
 * the numeric rule it stands for (see README, Findings).
 */
module MtprotoUtils {
  import opened Text

  /** The offset the Bot API adds to channel and supergroup ids. */
  const CHANNEL_OFFSET: nat := 1000000000000

  /**
   * bot_api_chat_id_to_mtproto as written: non-negative ids unchanged; otherwise
   * `str(chat_id)` loses a "-100" prefix or else the "-", and is parsed back with
   * `int()`. None stands for the ValueError that `int("")` raises for -100.
   */
  function BotApiChatIdToMtprotoAsWritten(chatId: int): (r: Option<int>)
    ensures chatId >= 0 ==> r == Some(chatId)
    ensures chatId < 0 && !StartsWith(NatToString(-chatId), "100") ==> r == Some(-chatId)
    ensures chatId < 0 && StartsWith(NatToString(-chatId), "100") ==> r == ParseInt(NatToString(-chatId)[3..])
  {
    if chatId >= 0 then Some(chatId)
    else
      var s := IntToString(chatId);
      assert s == "-" + NatToString(-chatId);
      assert s[1..] == NatToString(-chatId);
      assert StartsWith(s, "-100") <==> StartsWith(NatToString(-chatId), "100") by {
        if |s| >= 4 {
          assert s[..4] == "-" + NatToString(-chatId)[..3];
        }
      }
      if StartsWith(s, "-100") then
        assert s[4..] == NatToString(-chatId)[3..];
        ParseInt(s[4..])
      else if StartsWith(s, "-") then
        NatToStringValue(-chatId);
        ParseInt(s[1..])
      else Some(chatId)
  }

  /** The three kinds of peer a Bot API chat id stands for, with their MTProto ids. */
  datatype Peer = User(id: nat) | BasicGroup(id: nat) | Channel(id: nat)

  /** A peer whose id the Bot API can encode. */
  predicate ValidPeer(p: Peer) {
    match p
    case User(id) => true
    case BasicGroup(id) => 1 <= id < CHANNEL_OFFSET
    case Channel(id) => 1 <= id < CHANNEL_OFFSET
  }

  /** The Bot API chat id of a peer. */
  function BotApiId(p: Peer): int {
    match p
    case User(id) => id
    case BasicGroup(id) => -(id as int)
    case Channel(id) => -((CHANNEL_OFFSET + id) as int)
  }

  /**
   * bot_api_chat_id_to_mtproto by the numeric rule: channel ids lie below
   * -CHANNEL_OFFSET, basic group ids between it and zero.
   */
  function BotApiChatIdToMtproto(chatId: int): (r: int)
    ensures chatId >= 0 ==> r == chatId
    ensures chatId < 0 ==> r > 0
  {
    if chatId >= 0 then chatId
    else if chatId < -(CHANNEL_OFFSET as int) then -chatId - CHANNEL_OFFSET
    else -chatId
  }

  /** The conversion recovers the MTProto id of every peer the Bot API can name. */
  lemma ConversionRecoversPeerId(p: Peer)
    requires ValidPeer(p)
    ensures BotApiChatIdToMtproto(BotApiId(p)) == p.id
  {
  }

  /** A "-100" channel id with ten digits: both rules strip the prefix. */
  lemma ChannelExample(chatId: int)
    requires chatId == -1001234567890
    ensures BotApiChatIdToMtproto(chatId) == 1234567890
    ensures BotApiChatIdToMtproto(chatId) == BotApiId(Channel(1234567890)) * -1 - CHANNEL_OFFSET
  {
  }

  /**
   * The string rule takes the basic group -1001234 for a channel and returns 1234;
   * the group's MTProto id is 1001234.
   */
  lemma AsWrittenMisreadsBasicGroup(chatId: int)
    requires chatId == BotApiId(BasicGroup(1001234))
    ensures ValidPeer(BasicGroup(1001234))
    ensures BotApiChatIdToMtprotoAsWritten(chatId) == Some(1234)
    ensures BotApiChatIdToMtproto(chatId) == 1001234
  {
    var d := NatToString(1001234);
    assert d == "1001234";
    assert StartsWith(d, "100");
    assert d[3..] == "1234";
    assert ParseInt("1234") == Some(1234) by {
      assert AllDigits("1234");
      assert DigitsValue("1234") == 1234 by {
        assert "1234"[..3] == "123";
        assert "123"[..2] == "12";
        assert "12"[..1] == "1";
        assert "1"[..0] == "";
      }
    }
  }

  /** The string rule raises ValueError for the basic group -100. */
  lemma AsWrittenFailsOnGroup100(chatId: int)
    requires chatId == BotApiId(BasicGroup(100))
    ensures ValidPeer(BasicGroup(100))
    ensures BotApiChatIdToMtprotoAsWritten(chatId) == None
    ensures BotApiChatIdToMtproto(chatId) == 100
  {
    var d := NatToString(100);
    assert d == "100";
    assert d[3..] == "";
  }

  /** An identifier for MTProto calls: the username when there is one, else the chat id. */
  datatype ChatIdentifier = ByUsername(username: string) | ById(id: int)

  /** get_mtproto_chat_identifier: a truthy username wins over the converted id. */
  function GetMtprotoChatIdentifier(chatId: int, username: Option<string>): (r: ChatIdentifier)
    ensures Truthy(username) ==> r == ByUsername(username.value)
    ensures !Truthy(username) ==> r == ById(BotApiChatIdToMtproto(chatId))
  {
    if Truthy(username) then ByUsername(username.value) else ById(BotApiChatIdToMtproto(chatId))
  }

  /**
   * get_mtproto_chat_identifier as written, over the string rule; None is the
   * ValueError that rule raises.
   */
  function GetMtprotoChatIdentifierAsWritten(chatId: int, username: Option<string>): (r: Option<ChatIdentifier>)
    ensures Truthy(username) ==> r == Some(ByUsername(username.value))
    ensures !Truthy(username) ==> (r.Some? <==> BotApiChatIdToMtprotoAsWritten(chatId).Some?)
    ensures !Truthy(username) && r.Some? ==> r.value == ById(BotApiChatIdToMtprotoAsWritten(chatId).value)
    ensures r.Some? && r.value.ById? ==> r.value.id >= 0
  {
    if Truthy(username) then Some(ByUsername(username.value))
    else match BotApiChatIdToMtprotoAsWritten(chatId)
      case Some(id) => Some(ById(id))
      case None => None
  }

  /** Without a username, the basic group -1001234 is looked up as 1234 as written, and as 1001234 by the model. */
  lemma IdentifierAsWrittenMisreadsBasicGroup(chatId: int)
    requires chatId == BotApiId(BasicGroup(1001234))
    ensures GetMtprotoChatIdentifierAsWritten(chatId, None) == Some(ById(1234))
    ensures GetMtprotoChatIdentifier(chatId, None) == ById(1001234)
  {
    AsWrittenMisreadsBasicGroup(chatId);
  }
}
