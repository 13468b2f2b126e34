/**
 * The per-guild music players (helper/musicPlayer.py): a `Player` per guild,
 * created on first use and kept in the module-level `players` dictionary,
 * and the guard that connects the player to its user's voice channel.
 */
module MusicPlayer {
  import opened Optional
  import opened Discord
  import opened Database

  /** The ephemeral messages `Player` sends in reply to an interaction. */
  datatype Reply = NotInVoiceChannel | BeginDownloading(url: string)
  {
    function Text(): string
    {
      match this
      case NotInVoiceChannel => "You are not in a voice channel."
      case BeginDownloading(url) => "Understood. I will begin downloading '" + url + "'."
    }
  }

  /**
   * A voice connection of the bot. Only whether it is still connected is
   * observed; the library may drop it at any time, which clears `connected`.
   */
  class VoiceClient {
    var connected: bool
    const channel: VoiceChannel

    /** `channel.connect()`, when it succeeds: a new, connected client. */
    constructor Connect(channel: VoiceChannel)
      ensures connected && this.channel == channel
    {
      this.channel := channel;
      connected := true;
    }
  }

  class Player {
    var voiceClient: VoiceClient?
    const db: Table

    /** A new player holds the table it was given and no voice connection. */
    constructor (db: Table)
      ensures this.db == db && voiceClient == null
    {
      this.db := db;
      voiceClient := null;
    }

    /**
     * `connectToVoice`: refuse a user outside voice; otherwise keep a live
     * connection, or connect to the user's channel when there is none or
     * the old one has dropped.
     */
    method ConnectToVoice(interaction: Interaction) returns (ok: bool, sent: Option<Reply>)
      modifies this`voiceClient
      ensures ok <==> interaction.user.voice.Some?
      ensures !ok ==> sent == Some(NotInVoiceChannel) && voiceClient == old(voiceClient)
      ensures ok ==> sent == None && voiceClient != null && voiceClient.connected
      ensures ok && old(voiceClient) != null && old(voiceClient.connected) ==> voiceClient == old(voiceClient)
      ensures ok && (old(voiceClient) == null || !old(voiceClient.connected)) ==>
        fresh(voiceClient) && voiceClient.channel == interaction.user.voice.value.channel
    {
      if interaction.user.voice.None? {
        return false, Some(NotInVoiceChannel);
      }
      if voiceClient == null || !voiceClient.connected {
        voiceClient := new VoiceClient.Connect(interaction.user.voice.value.channel);
      }
      return true, None;
    }

    /** `play`: acknowledge the download only once the player is in voice. */
    method Play(interaction: Interaction, url: string) returns (sent: Reply)
      modifies this`voiceClient
      ensures sent == if interaction.user.voice.Some? then BeginDownloading(url) else NotInVoiceChannel
      ensures interaction.user.voice.None? ==> voiceClient == old(voiceClient)
      ensures interaction.user.voice.Some? ==> voiceClient != null && voiceClient.connected
      ensures interaction.user.voice.Some? && old(voiceClient) != null && old(voiceClient.connected) ==>
        voiceClient == old(voiceClient)
      ensures interaction.user.voice.Some? && (old(voiceClient) == null || !old(voiceClient.connected)) ==>
        fresh(voiceClient) && voiceClient.channel == interaction.user.voice.value.channel
    {
      var ok, refusal := ConnectToVoice(interaction);
      if !ok {
        return refusal.value;
      }
      sent := BeginDownloading(url);
    }
  }

  /** The module-level dictionary `players`, from guild id to that guild's player. */
  class PlayerRegistry {
    var players: map<int, Player>

    constructor ()
      ensures players == map[]
    {
      players := map[];
    }

    /**
     * `getPlayer`: the guild's player, created with `db` on first request;
     * a guild already known keeps its player and `db` is ignored.
     */
    method GetPlayer(guild: int, db: Table) returns (player: Player)
      modifies this
      ensures guild in players && player == players[guild]
      ensures guild in old(players) ==> players == old(players)
      ensures guild !in old(players) ==>
        fresh(player) && player.db == db && player.voiceClient == null &&
        players == old(players)[guild := player]
    {
      if guild !in players {
        var created := new Player(db);
        players := players[guild := created];
      }
      player := players[guild];
    }

    /** Asking twice for the same guild yields one player and one registry entry. */
    method GetPlayerTwice(guild: int, db: Table, otherDb: Table) returns (first: Player, second: Player)
      modifies this
      ensures first == second && guild in players && players[guild] == first
      ensures players.Keys == old(players).Keys + {guild}
      ensures guild in old(players) ==> first == old(players)[guild] && players == old(players)
    {
      first := GetPlayer(guild, db);
      second := GetPlayer(guild, otherDb);
    }
  }

}
