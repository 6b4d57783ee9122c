/**
 * The captcha challenge store: an in-memory map from challenge id to the
 * lower-cased answer and its expiry. The image generator, the id generator
 * and the clock are parameters.
 */
module Captcha {
  import opened Js

  /** A stored challenge: the lower-cased answer and the instant, in milliseconds, after which it is refused. */
  datatype Entry = Entry(value: string, expiresAt: real)

  /** What `generate` returns: the id, the image and the expiry. */
  datatype Challenge = Challenge(id: string, data: string, expiresAt: real)

  /**
   * The answer `validate` gives for a store: the id is present, the entry has
   * not expired (an entry is still good at its expiry instant), and the
   * guess matches the stored answer ignoring case.
   */
  predicate Validated(store: map<string, Entry>, id: string, guess: string, now: real) {
    id in store && now <= store[id].expiresAt && store[id].value == ToLowerCase(guess)
  }

  class CaptchaService {
    var store: map<string, Entry>
    const ttlSeconds: real

    constructor (ttlSeconds: real)
      ensures store == map[] && this.ttlSeconds == ttlSeconds
    {
      store := map[];
      this.ttlSeconds := ttlSeconds;
    }

    /**
     * `generate`: stores the lower-cased text of a new image under `id`, to
     * expire `ttlSeconds` after `now`; no other entry changes.
     */
    method Generate(id: string, text: string, data: string, now: real) returns (c: Challenge)
      modifies this
      ensures store == old(store)[id := Entry(ToLowerCase(text), now + ttlSeconds * 1000.0)]
      ensures c == Challenge(id, data, now + ttlSeconds * 1000.0)
    {
      var expiresAt := now + ttlSeconds * 1000.0;
      store := store[id := Entry(ToLowerCase(text), expiresAt)];
      c := Challenge(id, data, expiresAt);
    }

    /** `validate`: removes the entry whatever the outcome and answers as `Validated` says. */
    method Validate(id: string, guess: string, now: real) returns (ok: bool)
      modifies this
      ensures ok == Validated(old(store), id, guess, now)
      ensures store == old(store) - {id}
    {
      if id !in store {
        return false;
      }
      var entry := store[id];
      store := store - {id};
      if now > entry.expiresAt {
        return false;
      }
      ok := entry.value == ToLowerCase(guess);
    }
  }

  /** An id is good for one validation only: once consumed, every later guess is refused. */
  lemma OneShot(store: map<string, Entry>, id: string, guess: string, now: real)
    ensures !Validated(store - {id}, id, guess, now)
  {
  }

  /** Validating or generating one id leaves every other entry, and so every other answer, as it was. */
  lemma OtherIdsUntouched(store: map<string, Entry>, id: string, e: Entry, other: string, guess: string, now: real)
    requires other != id
    ensures Validated(store - {id}, other, guess, now) == Validated(store, other, guess, now)
    ensures Validated(store[id := e], other, guess, now) == Validated(store, other, guess, now)
  {
  }

  /**
   * A freshly generated challenge accepts a guess until its expiry exactly
   * when the guess spells the image text in any mix of cases, and refuses
   * everything after its expiry.
   */
  lemma FreshChallenge(store: map<string, Entry>, id: string, text: string, ttlSeconds: real, created: real, guess: string, now: real)
    ensures var s := store[id := Entry(ToLowerCase(text), created + ttlSeconds * 1000.0)];
      && (now <= created + ttlSeconds * 1000.0 ==>
            (Validated(s, id, guess, now) <==> ToLowerCase(guess) == ToLowerCase(text)))
      && (now > created + ttlSeconds * 1000.0 ==> !Validated(s, id, guess, now))
  {
  }

  /** The text itself is accepted, in whatever case the image shows it. */
  lemma OwnTextAccepted(store: map<string, Entry>, id: string, text: string, expiresAt: real, now: real)
    requires now <= expiresAt
    ensures Validated(store[id := Entry(ToLowerCase(text), expiresAt)], id, text, now)
    ensures Validated(store[id := Entry(ToLowerCase(text), expiresAt)], id, ToLowerCase(text), now)
  {
    LowerCaseIdempotent(text);
  }
}
