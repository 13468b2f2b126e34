# DiscordMusicBot core, modelled in Dafny

A Discord bot that plays downloaded YouTube audio in a guild's voice channel
and remembers, per guild, which text channel should receive its information
posts. This project models the three parts of the bot that hold logic beyond
Discord and I/O calls:

- **Song titles** (`song_name.dfy`, module `SongName`): `get_song_name` turns
  a downloaded filename into a display title. It takes the part before the
  last `-` and turns `_` into spaces. With no `-` it gives
  `"Wakarimasen! " + filename`. The regular-expression search
  `(.*)-.*` is modelled with Python's own semantics, in which `.` stops at a
  line feed. So for a filename with line feeds, the first line that holds a `-`
  decides.
- **Music players** (`music_player.dfy`, module `MusicPlayer`): one `Player`
  per guild, created on first request by `getPlayer` in the module-level
  dictionary `players` (here the class `PlayerRegistry`). `connectToVoice`
  refuses a user who is not in voice. It reuses a live voice connection and
  otherwise connects to the user's channel. `play` acknowledges the download
  only after that guard succeeds.
- **Information channel** (`info_channel.dfy`, module `InfoChannels`, over the
  guild table of `database.dfy`, module `Database`): `listChannels` collects
  the names of the guild's text channels in order. `handleResponse` refuses a
  name that is not among them. `write` upserts the choice into the TinyDB
  table: every record of the guild gets the new channel, or one record
  `{id, name, infoChannel}` is appended. The dropdown offers one option per
  listed name.

The Discord values the code reads (guild, channel kinds, the interaction and
its user's voice state) are datatypes in `discord.dfy`. Messages the bot sends
are returned as `Reply` values with their exact texts. The TinyDB table is a
class holding the sequence of documents. Its `search`, `update` and `insert`
act on that sequence.

`test_bot.py` imports `MusicCog` and `Session` from main.py, but main.py
defines neither. The model follows the code of main.py as it stands.

## Model

| member | source | states |
|---|---|---|
| SongName.SearchGroup | main.py:57 | the regex search fails exactly when the filename has no `-`; a match is shorter than the filename and lies within one line |
| SongName.SearchGroupOneLine | main.py:57 | in a one-line filename, group 1 of the search is exactly the prefix before the last `-` |
| SongName.GetSongName | main.py:56-61 | without a `-` the title is `"Wakarimasen! " + filename`; with one it is shorter than the filename and holds no `_` |
| SongName.ReplaceUnderscores | main.py:59 | the substitution keeps the length and turns exactly the `_` characters into spaces, position by position |
| SongName.SongNameBeforeLastHyphen | main.py:56-59 | for a one-line filename whose last `-` is at index k, the title is the first k characters with `_` replaced: its length is k, it holds no `_`, and every other character is kept in place |
| SongName.SongNameIgnoresTail | main.py:57-59 | the text after the last `-` has no influence on the title |
| SongName.FallbackIffNoHyphen | main.py:57-61 | the title is `"Wakarimasen! " + filename` if and only if the filename has no `-` |
| SongName.LeadingHyphenGivesEmptyTitle | main.py:57-59 | a filename whose only `-` is its first character gives the empty title, not the fallback |
| SongName.SongNameFirstLineDecides | main.py:57 | a line feed bounds the match: a first line with a `-` decides alone, and a first line without one is skipped |
| MusicPlayer.VoiceClient.Connect | helper/musicPlayer.py:24 | a successful connect yields a new client that is connected to the requested channel |
| MusicPlayer.Player.constructor | helper/musicPlayer.py:4-9 | a new player holds the given table and has no voice client |
| MusicPlayer.Player.ConnectToVoice | helper/musicPlayer.py:18-27 | true exactly when the user is in voice; otherwise it sends "not in a voice channel" and leaves the client alone; a connected client is kept; a missing or dropped one is replaced by a new connection to the user's channel; after true the client is connected |
| MusicPlayer.Player.Play | helper/musicPlayer.py:12-16 | the download acknowledgement for the url is sent only when the user is in voice, and the refusal otherwise with the client untouched; when in voice, a connected client is kept and a missing or dropped one is replaced by a new connection to the user's channel |
| MusicPlayer.PlayerRegistry.constructor | helper/musicPlayer.py:31 | the registry starts empty |
| MusicPlayer.PlayerRegistry.GetPlayer | helper/musicPlayer.py:33-36 | afterwards the guild is a key and the result is its player; a known guild leaves the map unchanged and ignores `db`; an unknown guild adds exactly one new player holding `db` with no voice client, and every other entry stays |
| MusicPlayer.PlayerRegistry.GetPlayerTwice | helper/musicPlayer.py:33-36 | two requests for one guild return the same player, whatever table the second passes |
| Database.Matching | helper/infoChannel.py:37 | the search result holds exactly the records with the guild id, is empty exactly when none has it, and is no longer than the table |
| Database.SetChannel | helper/infoChannel.py:40 | the update sets `infoChannel` on every record with the id, keeps the other fields and the other records, and keeps the table's length and order |
| Database.SetChannelIdempotent | helper/infoChannel.py:40 | updating the same channel twice equals updating it once |
| Database.Table.Search | helper/infoChannel.py:37-38 | the search is empty exactly when no record carries the id, and returns only records of the table with that id |
| Database.Table.Update | helper/infoChannel.py:40 | the table becomes the updated table |
| Database.Table.Insert | helper/infoChannel.py:42 | the record is appended at the end of the table |
| InfoChannels.TextChannelNames | helper/infoChannel.py:20-25 | the list of text-channel names is no longer than the channel list |
| InfoChannels.TextChannelNamesAppend | helper/infoChannel.py:22-24 | listing consecutive parts of the channel list lists each part in turn, so guild channel order is kept |
| InfoChannels.TextChannelNamesMembers | helper/infoChannel.py:22-24 | a name is listed if and only if a text channel carries it; non-text channels contribute nothing |
| InfoChannels.InfoChannel.constructor | helper/infoChannel.py:6-8 | the object holds the given table |
| InfoChannels.InfoChannel.ListChannels | helper/infoChannel.py:20-25 | the append loop returns exactly the text-channel names in guild channel order |
| InfoChannels.InfoChannel.HandleResponse | helper/infoChannel.py:27-32 | a name not among the text channels is refused and the table is unchanged; a listed name is written and acknowledged |
| InfoChannels.InfoChannel.Write | helper/infoChannel.py:34-42 | the table becomes the upsert of the guild's id, name and channel |
| InfoChannels.WriteUpdatesExisting | helper/infoChannel.py:37-40 | a guild already present gets the channel on every one of its records, with id and name unchanged, and no record is added |
| InfoChannels.WriteAppendsNew | helper/infoChannel.py:41-42 | a guild not present gets exactly one appended record `{id, name, infoChannel}` |
| InfoChannels.WriteLeavesOtherGuilds | helper/infoChannel.py:37-42 | records of other guilds keep their position and contents, and at most one record is added |
| InfoChannels.WriteStoresChannel | helper/infoChannel.py:34-42 | after the write some record of the guild names the chosen channel |
| InfoChannels.WriteIdempotent | helper/infoChannel.py:34-42 | writing the same channel a second time, under any guild name, gives the table of writing it once |
| InfoChannels.DropDown.constructor | helper/infoChannel.py:45-51 | one option per name, labelled with that name, in the same order; one value must be chosen |

## Left out

- The command handlers of main.py (`join`, `leave`, `play`, `pause`, `resume`, `stop`): they only call the voice-client library, whose state is not visible here.
- `YTDLSource` and its `from_url`: network download and extraction run in an executor.
- bot.py: loading the environment, creating the database file, registering the commands and running the bot.
- `InfoChannel.set` and `DropDown.callback`: they send Discord UI messages asynchronously. The callback's only logic is to pass the chosen value to `handleResponse`, which is modelled.
- Interactions from outside a guild: `Interaction` always carries a guild. A `setinfo` issued in a direct message has no guild, so `listChannels` (helper/infoChannel.py:22) and `write` (helper/infoChannel.py:35) raise an AttributeError there. The model covers only interactions from inside a guild.
- MusicPlayer.VoiceClient.Connect: a failing `connect()` raises in Python and aborts `connectToVoice`; the model covers only the successful connect.
- The voice client dropping its connection out of band is represented only by its `connected` flag; nothing in the model clears it.
- TinyDB's JSON file on disk and its document ids: the table is the in-memory sequence of records.
- Records are assumed to carry all three fields `id`, `name` and `infoChannel`, as every record `write` inserts does.
- The `print` logging calls and the `ephemeral` flag of the replies.
- Concurrency between asynchronous handlers: each operation is modelled as one atomic step.
