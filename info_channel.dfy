/**
 * Choosing the text channel that receives the bot's information posts
 * (helper/infoChannel.py): the list of a guild's text channels, the
 * upsert of the choice into the guild table, the guard that refuses a
 * name that is not a text channel, and the dropdown built from the list.
 */
module InfoChannels {
  import opened Discord
  import opened Database

  /** The message `handleResponse` edits into the original response. */
  datatype Reply = NoSuchChannel(channel: string) | WillPost(channel: string)
  {
    function Text(): string
    {
      match this
      case NoSuchChannel(c) => "There is no channel '" + c + "' on this server."
      case WillPost(c) => "Understood. I will post information to channel '" + c + "'."
    }
  }

  /** One entry of the dropdown: `SelectOption(label=...)`, its label in `labelText`. */
  datatype SelectOption = SelectOption(labelText: string)

  /** The names of the text channels among `channels`, in their order. */
  function TextChannelNames(channels: seq<GuildChannel>): (names: seq<string>)
    ensures |names| <= |channels|
  {
    if channels == [] then []
    else (if channels[0].kind == Text then [channels[0].name] else []) + TextChannelNames(channels[1..])
  }

  /** Listing a concatenation lists each part in turn: the channel order is kept. */
  lemma {:induction false} TextChannelNamesAppend(a: seq<GuildChannel>, b: seq<GuildChannel>)
    ensures TextChannelNames(a + b) == TextChannelNames(a) + TextChannelNames(b)
  {
    if a != [] {
      assert (a + b)[1..] == a[1..] + b;
      TextChannelNamesAppend(a[1..], b);
    } else {
      assert a + b == b;
    }
  }

  /** A name is listed exactly when some text channel carries it. */
  lemma {:induction false} TextChannelNamesMembers(channels: seq<GuildChannel>, name: string)
    ensures name in TextChannelNames(channels) <==>
      exists i :: 0 <= i < |channels| && channels[i].kind == Text && channels[i].name == name
  {
    if channels != [] {
      TextChannelNamesMembers(channels[1..], name);
      if channels[0].kind == Text && channels[0].name == name {
        assert name in TextChannelNames(channels);
      } else if exists i :: 0 <= i < |channels[1..]| && channels[1..][i].kind == Text && channels[1..][i].name == name {
        var i :| 0 <= i < |channels[1..]| && channels[1..][i].kind == Text && channels[1..][i].name == name;
        assert channels[i + 1] == channels[1..][i];
      } else {
        forall i | 0 <= i < |channels| && channels[i].kind == Text
          ensures channels[i].name != name
        {
          if i > 0 { assert channels[i] == channels[1..][i - 1]; }
        }
      }
    }
  }

  /** The guild table after `write` stores `channel` for the guild `id` named `name`. */
  function Written(records: seq<Record>, id: int, name: string, channel: string): seq<Record>
  {
    if Matching(records, id) != [] then SetChannel(records, id, channel)
    else records + [Record(id, name, channel)]
  }

  /** A guild already in the table: every one of its records gets the channel, nothing is added. */
  lemma WriteUpdatesExisting(records: seq<Record>, id: int, name: string, channel: string)
    requires exists i :: 0 <= i < |records| && records[i].id == id
    ensures |Written(records, id, name, channel)| == |records|
    ensures forall i :: 0 <= i < |records| ==>
      var w := Written(records, id, name, channel)[i];
      w.id == records[i].id && w.name == records[i].name &&
      w.infoChannel == (if records[i].id == id then channel else records[i].infoChannel)
  {
  }

  /** A guild not yet in the table: exactly one record `{id, name, channel}` is appended. */
  lemma WriteAppendsNew(records: seq<Record>, id: int, name: string, channel: string)
    requires forall i :: 0 <= i < |records| ==> records[i].id != id
    ensures Written(records, id, name, channel) == records + [Record(id, name, channel)]
  {
  }

  /** Records of other guilds keep their place and their contents. */
  lemma WriteLeavesOtherGuilds(records: seq<Record>, id: int, name: string, channel: string)
    ensures |records| <= |Written(records, id, name, channel)| <= |records| + 1
    ensures forall i :: 0 <= i < |records| && records[i].id != id ==>
      Written(records, id, name, channel)[i] == records[i]
  {
  }

  /** Some record of guild `id` names `channel`. */
  predicate HasChannel(records: seq<Record>, id: int, channel: string)
  {
    exists i :: 0 <= i < |records| && records[i].id == id && records[i].infoChannel == channel
  }

  /** After `write` the guild has a record naming `channel`. */
  lemma WriteStoresChannel(records: seq<Record>, id: int, name: string, channel: string)
    ensures HasChannel(Written(records, id, name, channel), id, channel)
  {
    var w := Written(records, id, name, channel);
    if Matching(records, id) != [] {
      var r := Matching(records, id)[0];
      assert r in Matching(records, id);
      var i :| 0 <= i < |records| && records[i] == r;
      assert w[i].id == id && w[i].infoChannel == channel;
    } else {
      assert w[|records|] == Record(id, name, channel);
    }
  }

  /** Writing the same channel twice leaves the table as writing it once. */
  lemma WriteIdempotent(records: seq<Record>, id: int, name: string, other: string, channel: string)
    ensures Written(Written(records, id, name, channel), id, other, channel) == Written(records, id, name, channel)
  {
  }

  class InfoChannel {
    const db: Table

    constructor (db: Table)
      ensures this.db == db
    {
      this.db := db;
    }

    /** `listChannels`: the names of the guild's text channels, in channel order. */
    method ListChannels(interaction: Interaction) returns (channels: seq<string>)
      ensures channels == TextChannelNames(interaction.guild.channels)
    {
      var all := interaction.guild.channels;
      channels := [];
      for i := 0 to |all|
        invariant channels == TextChannelNames(all[..i])
      {
        var channel := all[i];
        TextChannelNamesAppend(all[..i], [channel]);
        assert all[..i + 1] == all[..i] + [channel];
        if channel.kind == Text {
          channels := channels + [channel.name];
        }
      }
      assert all[..|all|] == all;
    }

    /**
     * `handleResponse`: a name that is not one of the guild's text channels
     * is refused and the table is left alone; otherwise it is written.
     */
    method HandleResponse(interaction: Interaction, channel: string) returns (reply: Reply)
      modifies db
      ensures channel in TextChannelNames(interaction.guild.channels) ==>
        reply == WillPost(channel) &&
        db.records == Written(old(db.records), interaction.guild.id, interaction.guild.name, channel)
      ensures channel !in TextChannelNames(interaction.guild.channels) ==>
        reply == NoSuchChannel(channel) && db.records == old(db.records)
    {
      var channels := ListChannels(interaction);
      if channel !in channels {
        return NoSuchChannel(channel);
      }
      Write(interaction, channel);
      reply := WillPost(channel);
    }

    /** `write`: update the guild's records when it has some, else insert a new one. */
    method Write(interaction: Interaction, channel: string)
      modifies db
      ensures db.records == Written(old(db.records), interaction.guild.id, interaction.guild.name, channel)
    {
      var guildId := interaction.guild.id;
      var guildName := interaction.guild.name;
      var result := db.Search(guildId);
      if result != [] {
        db.Update(channel, guildId);
      } else {
        db.Insert(Record(guildId, guildName, channel));
      }
    }
  }

  /** The single-choice dropdown offering the listed channel names. */
  class DropDown {
    const placeholder: string
    const options: seq<SelectOption>
    const minValues: nat
    const maxValues: nat
    const infoChannel: InfoChannel
    const originalInteraction: Interaction

    /** One option per name, labelled with that name, in the same order. */
    constructor (placeholder: string, options: seq<string>, infoChannel: InfoChannel,
                 originalInteraction: Interaction)
      ensures |this.options| == |options|
      ensures forall i :: 0 <= i < |options| ==> this.options[i] == SelectOption(options[i])
      ensures this.placeholder == placeholder && minValues == 1 && maxValues == 1
      ensures this.infoChannel == infoChannel && this.originalInteraction == originalInteraction
    {
      var selectOptionList: seq<SelectOption> := [];
      for i := 0 to |options|
        invariant |selectOptionList| == i
        invariant forall j :: 0 <= j < i ==> selectOptionList[j] == SelectOption(options[j])
      {
        selectOptionList := selectOptionList + [SelectOption(options[i])];
      }
      this.infoChannel := infoChannel;
      this.originalInteraction := originalInteraction;
      this.placeholder := placeholder;
      this.options := selectOptionList;
      this.minValues := 1;
      this.maxValues := 1;
    }
  }

}
