/**
 * The audio provider's state: which message's audio is current and in what
 * status, the cache of generated audio urls per message, and the loaded audio
 * element. Playing and pausing the element, and the object urls themselves,
 * are browser effects and are not modelled beyond the element's url.
 */
module AudioContext {
  import opened Wrappers

  datatype AudioStatus = Generating | Playing | Paused

  datatype CurrentAudio = CurrentAudio(status: AudioStatus, messageId: string)

  /** How the `POST /api/tts` request settles: a non-OK response, an audio blob (as its object url), or a thrown error. */
  datatype TtsReply = NotOk | Audio(url: string) | Threw

  class AudioProvider {
    var currentAudio: Option<CurrentAudio>
    /** `generatedAudios`: message id to the object url of its audio. */
    var generatedAudios: map<string, string>
    /** `audioRef.current`: the url of the loaded audio element, or `None` for `null`. */
    var element: Option<string>

    /**
     * An element is loaded exactly when some audio is playing or paused, and it
     * is the cached audio of the current message.
     */
    ghost predicate Valid()
      reads this
    {
      && (element.Some? <==> currentAudio.Some? && currentAudio.value.status != Generating)
      && (element.Some? ==>
            currentAudio.value.messageId in generatedAudios &&
            element.value == generatedAudios[currentAudio.value.messageId])
    }

    /** True when `id`'s audio is cached under a non-empty url. */
    predicate Cached(id: string)
      reads this
    {
      id in generatedAudios && generatedAudios[id] != ""
    }

    constructor ()
      ensures Valid()
      ensures currentAudio == None && generatedAudios == map[] && element == None
    {
      currentAudio := None;
      generatedAudios := map[];
      element := None;
    }

    /** Stops and forgets the audio element. */
    method Cleanup()
      modifies this
      ensures element == None
      ensures currentAudio == old(currentAudio) && generatedAudios == old(generatedAudios)
    {
      if element.Some? {
        element := None;
      }
    }

    /** The close button: drop the current audio. */
    method Discard()
      requires Valid()
      modifies this
      ensures Valid()
      ensures currentAudio == None && element == None
      ensures generatedAudios == old(generatedAudios)
    {
      Cleanup();
      currentAudio := None;
    }

    /** The element's `ended` event. */
    method Ended()
      requires Valid()
      modifies this
      ensures Valid()
      ensures currentAudio == None && element == None
      ensures generatedAudios == old(generatedAudios)
    {
      Cleanup();
      currentAudio := None;
    }

    /** Loads `url` into a new element and plays it; callers pass the cached url of `messageId`. */
    method PlayFromUrl(messageId: string, url: string)
      requires messageId in generatedAudios && generatedAudios[messageId] == url
      modifies this
      ensures Valid()
      ensures element == Some(url) && currentAudio == Some(CurrentAudio(Playing, messageId))
      ensures generatedAudios == old(generatedAudios)
    {
      element := Some(url);
      currentAudio := Some(CurrentAudio(Playing, messageId));
    }

    /**
     * The part of `requestTTS` before its request: a cached message plays at
     * once and sends nothing; otherwise the message is marked generating and
     * `request` is the text posted to the speech endpoint.
     */
    method RequestTTS(messageId: string, text: string) returns (request: Option<string>)
      requires Valid()
      modifies this
      ensures Valid()
      ensures generatedAudios == old(generatedAudios)
      ensures request.None? <==> old(Cached(messageId))
      ensures old(Cached(messageId)) ==>
                currentAudio == Some(CurrentAudio(Playing, messageId)) &&
                element == Some(generatedAudios[messageId])
      ensures !old(Cached(messageId)) ==>
                request == Some(text) &&
                currentAudio == Some(CurrentAudio(Generating, messageId)) && element == None
    {
      Cleanup();
      if messageId in generatedAudios && generatedAudios[messageId] != "" {
        var cachedUrl := generatedAudios[messageId];
        PlayFromUrl(messageId, cachedUrl);
        request := None;
        return;
      }
      currentAudio := Some(CurrentAudio(Generating, messageId));
      request := Some(text);
    }

    /**
     * The part of `requestTTS` after its request settles: on audio, cache it for
     * the message and play it; on a non-OK response or an error, no audio is current.
     */
    method TtsSettled(messageId: string, reply: TtsReply)
      requires Valid()
      modifies this
      ensures Valid()
      ensures reply.Audio? ==>
                generatedAudios == old(generatedAudios)[messageId := reply.url] &&
                currentAudio == Some(CurrentAudio(Playing, messageId)) && element == Some(reply.url)
      ensures !reply.Audio? ==>
                generatedAudios == old(generatedAudios) && currentAudio == None && element == None
    {
      match reply
      case NotOk =>
        currentAudio := None;
        // the thrown "TTS request failed" lands in the catch below
        Cleanup();
        currentAudio := None;
      case Audio(url) =>
        generatedAudios := generatedAudios[messageId := url];
        PlayFromUrl(messageId, url);
      case Threw =>
        Cleanup();
        currentAudio := None;
    }

    /** Playing and paused swap, keeping the message; otherwise nothing changes. */
    method TogglePlayPause()
      requires Valid()
      modifies this
      ensures Valid()
      ensures element == old(element) && generatedAudios == old(generatedAudios)
      ensures old(element).None? || old(currentAudio).None? ==> currentAudio == old(currentAudio)
      ensures old(element).Some? && old(currentAudio).Some? ==>
                var prev := old(currentAudio).value;
                currentAudio == Some(prev.(status := match prev.status
                                                      case Playing => Paused
                                                      case Paused => Playing
                                                      case Generating => Generating))
    {
      if element.None? || currentAudio.None? {
        return;
      }
      if currentAudio.value.status == Playing {
        currentAudio := Some(currentAudio.value.(status := Paused));
      } else if currentAudio.value.status == Paused {
        currentAudio := Some(currentAudio.value.(status := Playing));
      }
    }

    /**
     * A message's listen button: refused while any audio is current; otherwise
     * `requestTTS` on the message's id and content.
     */
    method Listen(messageId: string, content: string) returns (request: Option<string>)
      requires Valid()
      modifies this
      ensures Valid()
      ensures generatedAudios == old(generatedAudios)
      ensures old(currentAudio).Some? ==>
                request == None && currentAudio == old(currentAudio) && element == old(element)
      ensures old(currentAudio).None? && old(Cached(messageId)) ==>
                request == None &&
                currentAudio == Some(CurrentAudio(Playing, messageId)) &&
                element == Some(generatedAudios[messageId])
      ensures old(currentAudio).None? && !old(Cached(messageId)) ==>
                request == Some(content) &&
                currentAudio == Some(CurrentAudio(Generating, messageId)) && element == None
    {
      if currentAudio.Some? {
        request := None;
        return;
      }
      request := RequestTTS(messageId, content);
    }

    /** The generating indicator of a message. */
    function IsGenerating(messageId: string): (generating: bool)
      reads this
      requires Valid()
      ensures generating ==> element == None
    {
      currentAudio.Some? && currentAudio.value.messageId == messageId && currentAudio.value.status == Generating
    }
  }
}
