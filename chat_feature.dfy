/**
 * The chat screen's view model: sending text and media messages, and the
 * bookkeeping of inline video players (which are registered, which one is
 * playing).  The chat's message list and the list it is reset to live in
 * the chat preview model; here they are fields of the view model.
 */
module ChatFeature {
  import opened Options
  import opened Ascii
  import PerfectGridLayout

  /** A chat message.  The random `id` is left out and the `Date` is a
      timestamp supplied by the caller. */
  datatype Message = Message(
    content: string, mediaItem: Option<PerfectGridLayout.GridItem>,
    isFromCurrentUser: bool, timestamp: int)

  /** An `AVPlayer`, known only by the URL it was created for. */
  datatype Player = Player(url: string)

  /** The text of a message as sent: with white space trimmed from both ends. */
  function Trimmed(text: string): (t: string)
    ensures t == [] <==> forall i :: 0 <= i < |text| ==> IsWhitespace(text[i])
    ensures |t| > 0 ==> !IsWhitespace(t[0]) && !IsWhitespace(t[|t| - 1])
  {
    var t := Trim(text, IsWhitespace);
    assert t == [] ==> forall i :: 0 <= i < |text| ==> IsWhitespace(text[i]);
    assert (forall i :: 0 <= i < |text| ==> IsWhitespace(text[i])) ==> KeepFrom(text, IsWhitespace, 0) == |text|;
    t
  }

  /** Trimming is idempotent: a sent text would be sent unchanged again. */
  lemma TrimmedIdempotent(text: string)
    ensures Trimmed(Trimmed(text)) == Trimmed(text)
  {
    TrimIdempotent(text, IsWhitespace);
  }

  /** The playing video after `playVideo(id)` for a registered `id`: the same
      id again stops it, any other id starts that one. */
  function PlayToggle(current: Option<string>, id: string): (r: Option<string>)
    ensures current == Some(id) ==> r == None
    ensures current != Some(id) ==> r == Some(id)
  {
    if current == Some(id) then None else Some(id)
  }

  /** Two taps on a video that is not playing start and then stop it; two
      taps on the playing video stop and restart it. */
  lemma PlayToggleTwice(current: Option<string>, id: string)
    ensures PlayToggle(PlayToggle(current, id), id) == if current == Some(id) then current else None
  {
  }

  class ChatFeatureViewModel {
    var messages: seq<Message>
    /** The conversation the chat is reset to (`originalNonMutableMessages`). */
    var originalMessages: seq<Message>
    var isMediaPickerPresented: bool
    var videoPlayers: map<string, Player>
    var currentlyPlayingID: Option<string>

    /** The playing video, if any, is a registered one. */
    predicate Valid()
      reads this
    {
      currentlyPlayingID.None? || currentlyPlayingID.value in videoPlayers
    }

    constructor(conversation: seq<Message>)
      ensures Valid()
      ensures messages == conversation && originalMessages == conversation
      ensures !isMediaPickerPresented && videoPlayers == map[] && currentlyPlayingID == None
    {
      messages := conversation;
      originalMessages := conversation;
      isMediaPickerPresented := false;
      videoPlayers := map[];
      currentlyPlayingID := None;
    }

    /** `sendTextMessage`: a text that is all white space sends nothing;
        any other sends one message of the trimmed text from the user. */
    method SendTextMessage(text: string, now: int)
      requires Valid()
      modifies this
      ensures Valid()
      ensures Trimmed(text) == [] ==> messages == old(messages)
      ensures Trimmed(text) != [] ==>
        messages == old(messages) + [Message(Trimmed(text), None, true, now)]
      ensures originalMessages == old(originalMessages) && videoPlayers == old(videoPlayers)
      ensures currentlyPlayingID == old(currentlyPlayingID) && isMediaPickerPresented == old(isMediaPickerPresented)
    {
      var trimmedText := Trimmed(text);
      if trimmedText == [] {
        return;
      }
      var newMessage := Message(trimmedText, None, true, now);
      messages := messages + [newMessage];
    }

    /** `sendMediaMessage`: one message with no text and the item. */
    method SendMediaMessage(item: PerfectGridLayout.GridItem, now: int)
      requires Valid()
      modifies this
      ensures Valid()
      ensures messages == old(messages) + [Message("", Some(item), true, now)]
      ensures originalMessages == old(originalMessages) && videoPlayers == old(videoPlayers)
      ensures currentlyPlayingID == old(currentlyPlayingID) && isMediaPickerPresented == old(isMediaPickerPresented)
    {
      messages := messages + [Message("", Some(item), true, now)];
    }

    /** `registerVideoPlayer`: a new player for the message, replacing any
        earlier one. */
    method RegisterVideoPlayer(messageID: string, url: string)
      requires Valid()
      modifies this
      ensures Valid()
      ensures videoPlayers == old(videoPlayers)[messageID := Player(url)]
      ensures currentlyPlayingID == old(currentlyPlayingID)
      ensures messages == old(messages) && originalMessages == old(originalMessages)
      ensures isMediaPickerPresented == old(isMediaPickerPresented)
    {
      videoPlayers := videoPlayers[messageID := Player(url)];
    }

    /** The end-of-playback notification of any registered player: nothing is
        playing any more, whichever video it was. */
    method PlaybackEnded()
      requires Valid()
      modifies this
      ensures Valid()
      ensures currentlyPlayingID == None && videoPlayers == old(videoPlayers)
      ensures messages == old(messages) && originalMessages == old(originalMessages)
      ensures isMediaPickerPresented == old(isMediaPickerPresented)
    {
      currentlyPlayingID := None;
    }

    /** `unregisterVideoPlayer`: forget the player, and stop it if it was playing. */
    method UnregisterVideoPlayer(messageID: string)
      requires Valid()
      modifies this
      ensures Valid()
      ensures videoPlayers == old(videoPlayers) - {messageID}
      ensures currentlyPlayingID == if old(currentlyPlayingID) == Some(messageID) then None else old(currentlyPlayingID)
      ensures messages == old(messages) && originalMessages == old(originalMessages)
      ensures isMediaPickerPresented == old(isMediaPickerPresented)
    {
      if currentlyPlayingID == Some(messageID) {
        currentlyPlayingID := None;
      }
      videoPlayers := videoPlayers - {messageID};
    }

    /** `getPlayer`. */
    function GetPlayer(messageID: string): (p: Option<Player>)
      reads this
      ensures p.Some? <==> messageID in videoPlayers
      ensures p.Some? ==> p.value == videoPlayers[messageID]
    {
      if messageID in videoPlayers then Some(videoPlayers[messageID]) else None
    }

    /** `pauseVideo`: for a registered player, stop it if it was the one playing. */
    method PauseVideo(messageID: string)
      requires Valid()
      modifies this
      ensures Valid()
      ensures messageID !in videoPlayers ==> currentlyPlayingID == old(currentlyPlayingID)
      ensures messageID in videoPlayers ==>
        currentlyPlayingID == if old(currentlyPlayingID) == Some(messageID) then None else old(currentlyPlayingID)
      ensures videoPlayers == old(videoPlayers)
      ensures messages == old(messages) && originalMessages == old(originalMessages)
      ensures isMediaPickerPresented == old(isMediaPickerPresented)
    {
      if messageID !in videoPlayers {
        return;
      }
      if currentlyPlayingID == Some(messageID) {
        currentlyPlayingID := None;
      }
    }

    /** `playVideo`: for a registered player, toggle it; an unregistered id
        changes nothing. */
    method PlayVideo(messageID: string)
      requires Valid()
      modifies this
      ensures Valid()
      ensures messageID !in videoPlayers ==> currentlyPlayingID == old(currentlyPlayingID)
      ensures messageID in videoPlayers ==> currentlyPlayingID == PlayToggle(old(currentlyPlayingID), messageID)
      ensures videoPlayers == old(videoPlayers)
      ensures messages == old(messages) && originalMessages == old(originalMessages)
      ensures isMediaPickerPresented == old(isMediaPickerPresented)
    {
      if messageID !in videoPlayers {
        return;
      }
      if currentlyPlayingID == Some(messageID) {
        currentlyPlayingID := None;
        return;
      }
      currentlyPlayingID := Some(messageID);
    }

    /** `pauseAllVideos`. */
    method PauseAllVideos()
      requires Valid()
      modifies this
      ensures Valid()
      ensures currentlyPlayingID == None && videoPlayers == old(videoPlayers)
      ensures messages == old(messages) && originalMessages == old(originalMessages)
      ensures isMediaPickerPresented == old(isMediaPickerPresented)
    {
      currentlyPlayingID := None;
    }

    /** `cleanUp`: the conversation back to its original messages, the picker
        closed, every player dropped and nothing playing. */
    method CleanUp()
      modifies this
      ensures Valid()
      ensures messages == old(originalMessages) && originalMessages == old(originalMessages)
      ensures !isMediaPickerPresented && videoPlayers == map[] && currentlyPlayingID == None
    {
      messages := originalMessages;
      isMediaPickerPresented := false;
      videoPlayers := map[];
      currentlyPlayingID := None;
    }
  }
}
