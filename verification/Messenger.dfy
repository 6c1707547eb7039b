/** Learning a peer's devices from the directory, and deciding what one message to them becomes. */
module Messenger {
  import opened Words
  import opened Layout
  import opened Keys
  import E = Envelopes
  import opened Manifests

  /** A manifest may arrive too late for whoever asked, and still teach us its keys. */
  datatype Query = Query(reply: Option<SignedManifest>, inTime: bool)

  datatype Lookup = Found | Absent | Unavailable

  datatype Outgoing = Cipher(envelope: string) | Clear | NotSent

  /** The device keys cached for this session, and the book that outlives it. */
  datatype Session = Session(keys: map<Name, seq<PublicKey>>, book: Book)

  datatype Setup = Setup(sch: Scheme, text: KeyText, crypto: E.Crypto, me: Name, ours: PublicKey)

  datatype SendEnv = SendEnv(
    on: bool, keypair: Option<E.SecretKey>, directory: bool, query: Query, saved: bool, dice: E.Dice)

  predicate Holds(s: Session, who: Name) {
    who in s.keys && s.keys[who] != []
  }

  predicate Known(s: Session, who: Name) {
    Holds(s, who) || PublishedBefore(s.book, who)
  }

  function Learned(u: Setup, s: Session, who: Name, keys: seq<PublicKey>, saved: bool): Session {
    if keys == [] then s
    else Session(s.keys[who := keys], Noted(u.text, s.book, who, keys, saved))
  }

  function LearnedFrom(u: Setup, s: Session, sm: SignedManifest, saved: bool): Session {
    if !sm.present then s
    else
      var v := Verifying(u.sch, u.me, s.book, sm, saved);
      var t := s.(book := v.book);
      if v.devices.None? || IsSelf(u.me, sm.name) || v.devices.value == [] then t
      else Learned(u, t, sm.name, Canonical(Boxes(v.devices.value)), saved)
  }

  function Asked(u: Setup, s: Session, directory: bool, q: Query, saved: bool): Session {
    if !directory then s
    else match q.reply
         case None => s
         case Some(sm) => LearnedFrom(u, s, sm, saved)
  }

  /** "They have published nothing" is believed only of somebody never known to have. */
  function LookedUp(u: Setup, s: Session, who: Name, directory: bool, q: Query, saved: bool): Lookup {
    var t := Asked(u, s, directory, q, saved);
    if !directory then Absent
    else if q.reply.None? || !q.inTime then Unavailable
    else if !q.reply.value.present then (if Known(t, who) then Unavailable else Absent)
    else if Holds(t, who) then Found
    else Unavailable
  }

  predicate Ready(env: SendEnv) {
    env.on && env.keypair.Some?
  }

  function AfterSend(u: Setup, s: Session, to: Name, env: SendEnv): Session {
    if Ready(env) && !Holds(s, to) then Asked(u, s, env.directory, env.query, env.saved) else s
  }

  function SentAs(u: Setup, s: Session, to: Name, text: Bytes, env: SendEnv): Outgoing {
    var t := AfterSend(u, s, to, env);
    if !Ready(env) then Clear
    else if !Holds(s, to) && LookedUp(u, s, to, env.directory, env.query, env.saved).Unavailable? then NotSent
    else if !Holds(t, to) then Clear
    else match E.Sealed(u.crypto, text, t.keys[to], env.keypair.value, env.dice)
         case Some(envelope) => Cipher(envelope)
         case None => NotSent
  }

  class Client {
    var keys: map<Name, seq<PublicKey>>
    const book: TrustBook

    ghost function State(): Session
      reads this, book
    {
      Session(keys, book.State())
    }

    constructor (b: TrustBook)
      ensures book == b && State() == Session(map[], b.State())
    {
      keys, book := map[], b;
    }

    method PeerKeys(who: Name) returns (k: seq<PublicKey>, ok: bool)
      ensures ok <==> Holds(State(), who)
      ensures ok ==> k == keys[who]
    {
      if who in keys {
        k := keys[who];
        ok := |k| > 0;
      } else {
        k, ok := [], false;
      }
    }

    method LearnPeerKeys(u: Setup, who: Name, learned: seq<PublicKey>, saved: bool)
      modifies this, book
      ensures State() == Learned(u, old(State()), who, learned, saved)
    {
      if |learned| == 0 {
        return;
      }
      keys := keys[who := learned];
      book.NotePeerKey(u.text, who, learned, saved);
    }

    method ForgetPeerKeys()
      modifies this
      ensures State() == old(State()).(keys := map[])
    {
      keys := map[];
    }

    method LearnFromManifest(u: Setup, sm: SignedManifest, saved: bool)
      modifies this, book
      ensures State() == LearnedFrom(u, old(State()), sm, saved)
    {
      if !sm.present {
        return;
      }
      var devices := book.VerifyManifest(u.sch, u.me, u.ours, sm, saved);
      if devices.None? {
        return;
      }
      if IsSelf(u.me, sm.name) || |devices.value| == 0 {
        return;
      }
      var boxes := DedupeKeys(Boxes(devices.value));
      LearnPeerKeys(u, sm.name, boxes, saved);
    }

    method PeerKnownToHavePublished(who: Name) returns (known: bool)
      ensures known <==> Known(State(), who)
    {
      var _, held := PeerKeys(who);
      if held {
        return true;
      }
      known := book.PeerHasPublishedBefore(who);
    }

    method RefreshPeerKeys(u: Setup, who: Name, directory: bool, q: Query, saved: bool) returns (result: Lookup)
      modifies this, book
      ensures State() == Asked(u, old(State()), directory, q, saved)
      ensures result == LookedUp(u, old(State()), who, directory, q, saved)
    {
      if !directory {
        return Absent;
      }
      if q.reply.Some? {
        LearnFromManifest(u, q.reply.value, saved);
      }
      if q.reply.None? || !q.inTime {
        return Unavailable;
      }
      if !q.reply.value.present {
        var known := PeerKnownToHavePublished(who);
        if known {
          return Unavailable;
        }
        return Absent;
      }
      var _, held := PeerKeys(who);
      if held {
        return Found;
      }
      result := Unavailable;
    }

    /** The decision: encrypt, send in the clear, or send nothing. */
    method SealOutbound(u: Setup, to: Name, text: Bytes, env: SendEnv) returns (out: Outgoing)
      modifies this, book
      ensures out == SentAs(u, old(State()), to, text, env)
      ensures State() == AfterSend(u, old(State()), to, env)
    {
      if !Ready(env) {
        return Clear;
      }
      var known, held := PeerKeys(to);
      if !held {
        var looked := RefreshPeerKeys(u, to, env.directory, env.query, env.saved);
        if looked == Unavailable {
          return NotSent;
        }
        known, held := PeerKeys(to);
      }
      if !held {
        return Clear;
      }
      var envelope := E.SealFor(u.crypto, text, known, env.keypair.value, env.dice);
      if envelope.None? {
        return NotSent;
      }
      out := Cipher(envelope.value);
    }
  }
}
