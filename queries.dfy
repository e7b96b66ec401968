/** The four request builders (exporter.py:114-180): each fixes an endpoint,
    a parameter map and the key under which every page nests its records. */
module Queries {
  import opened Json

  const PageSize := 200

  const ConversationsList := "https://slack.com/api/conversations.list"
  const ConversationsHistory := "https://slack.com/api/conversations.history"
  const UsersList := "https://slack.com/api/users.list"
  const ConversationsReplies := "https://slack.com/api/conversations.replies"

  /** The arguments of one paginated_get call. */
  datatype Query = Query(endpoint: string, params: Record, key: string)

  /** An optional team_id is a JSON null when not given (requests leaves
      such parameters out of the URL). */
  function ChannelList(teamId: Json): Query {
    Query(ConversationsList,
          map["team_id" := teamId, "types" := JStr("private_channel"), "limit" := JNum(PageSize)],
          "channels")
  }

  function ChannelHistory(channelId: Json, oldest: Json, latest: Json): Query {
    Query(ConversationsHistory,
          map["channel" := channelId, "limit" := JNum(PageSize), "oldest" := oldest, "latest" := latest],
          "messages")
  }

  function UserList(teamId: Json): Query {
    Query(UsersList, map["limit" := JNum(PageSize), "team_id" := teamId], "members")
  }

  function ChannelReplies(threadTs: Json, channelId: Json): Query {
    Query(ConversationsReplies,
          map["channel" := channelId, "ts" := threadTs, "limit" := JNum(PageSize)],
          "messages")
  }

  /** Which key each endpoint is read under, and that every query asks for
      pages of 200 (private channels only, for the channel list). */
  lemma BuildersFixKeys(team: Json, channel: Json, oldest: Json, latest: Json, ts: Json)
    ensures var q := ChannelList(team);
      q.key == "channels" && q.params["types"] == JStr("private_channel")
      && q.params["limit"] == JNum(200) && q.params["team_id"] == team
    ensures var q := UserList(team);
      q.key == "members" && q.params["limit"] == JNum(200) && q.params["team_id"] == team
    ensures var q := ChannelHistory(channel, oldest, latest);
      q.key == "messages" && q.params["limit"] == JNum(200) && q.params["channel"] == channel
      && q.params["oldest"] == oldest && q.params["latest"] == latest
    ensures var q := ChannelReplies(ts, channel);
      q.key == "messages" && q.params["limit"] == JNum(200) && q.params["channel"] == channel
      && q.params["ts"] == ts
    ensures |{ChannelList(team).endpoint, UserList(team).endpoint,
              ChannelHistory(channel, oldest, latest).endpoint, ChannelReplies(ts, channel).endpoint}| == 4
  {
  }

  // ---- the text of a window bound -------------------------------------------

  function DigitChar(d: nat): char
    requires d < 10
  {
    ('0' as int + d) as char
  }

  /** The decimal digits of n, without leading zeros. */
  function Digits(n: nat): (s: string)
    ensures |s| >= 1
    ensures forall k :: 0 <= k < |s| ==> '0' <= s[k] <= '9'
  {
    if n < 10 then [DigitChar(n)] else Digits(n / 10) + [DigitChar(n % 10)]
  }

  /** str(float(t)) for an integral t of magnitude below 10^16, which Python
      prints as its decimal form followed by ".0". */
  function FloatText(t: int): string {
    (if t < 0 then "-" + Digits(-t) else Digits(t)) + ".0"
  }

  /** The value of a string of decimal digits. */
  function DigitsValue(s: string): int
    requires forall k :: 0 <= k < |s| ==> '0' <= s[k] <= '9'
  {
    if s == [] then 0 else 10 * DigitsValue(s[..|s| - 1]) + (s[|s| - 1] as int - '0' as int)
  }

  /** How the server reads a window bound back: an optional minus sign, digits, ".0". */
  function ParseFloatText(s: string): Option<int> {
    if |s| < 3 || s[|s| - 2..] != ".0" then None
    else
      var body := s[..|s| - 2];
      var neg := body[0] == '-';
      var digits := if neg then body[1..] else body;
      if digits == [] || !(forall k :: 0 <= k < |digits| ==> '0' <= digits[k] <= '9') then None
      else Some(if neg then -DigitsValue(digits) else DigitsValue(digits))
  }

  lemma {:induction false} DigitsRoundTrip(n: nat)
    ensures DigitsValue(Digits(n)) == n
  {
    if n >= 10 {
      DigitsRoundTrip(n / 10);
      var s := Digits(n);
      assert s[..|s| - 1] == Digits(n / 10);
      assert s[|s| - 1] as int - '0' as int == n % 10;
      assert DigitsValue(s) == 10 * (n / 10) + n % 10;
    }
  }

  /** The text a history query carries for a bound names exactly that second. */
  lemma FloatTextRoundTrip(t: int)
    ensures ParseFloatText(FloatText(t)) == Some(t)
  {
    var d := if t < 0 then Digits(-t) else Digits(t);
    var s := FloatText(t);
    assert s[..|s| - 2] == (if t < 0 then "-" + d else d);
    assert s[|s| - 2..] == ".0";
    DigitsRoundTrip(if t < 0 then -t else t);
    if t < 0 {
      assert ("-" + d)[1..] == d;
    } else {
      assert d[0] != '-';
    }
  }
}
