/**
 * The values the bot reads from the Discord library. Only the parts the
 * modelled code looks at are kept: a guild's id, name and channel list, the
 * kind of each channel, and the voice presence of the user behind an
 * interaction.
 */
module Discord {
  import opened Optional

  /** The channel kinds of `discord.enums.ChannelType`. */
  datatype ChannelType =
    | Text | Private | Voice | Group | Category | News | StageVoice
    | NewsThread | PublicThread | PrivateThread | Directory | Forum | Media

  /** A channel of a guild, as listed by `guild.channels`. */
  datatype GuildChannel = GuildChannel(name: string, kind: ChannelType)

  datatype Guild = Guild(id: int, name: string, channels: seq<GuildChannel>)

  /** A voice channel a user can sit in and the bot can connect to. */
  datatype VoiceChannel = VoiceChannel(id: int)

  /** `user.voice`: present only while the user is in a voice channel. */
  datatype VoiceState = VoiceState(channel: VoiceChannel)

  datatype User = User(voice: Option<VoiceState>)

  /** A slash-command interaction: the guild it came from and who issued it. */
  datatype Interaction = Interaction(guild: Guild, user: User)

}
