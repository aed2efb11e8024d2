/**
 * The profile dashboard (`PerfilView`): experience points and level, the
 * progress bar towards the next level, the completion donut, the hero card
 * with its achievements bar, the avatar and friend-list fallbacks, and the
 * activity log. Every figure is an expression over the user, the friends
 * and the games passed in.
 */
module Profile {
  import opened JsValues
  import opened Games
  import opened LibraryStats
  import opened Arith

  const DEFAULT_AVATAR: string := "https://i.imgur.com/6v8d9nS.png"
  const XP_PER_GAME: int := 50
  const XP_PER_COMPLETE: int := 150
  const XP_PER_HOUR: int := 10

  /** `curr.totalHorasJugadas || 0` */
  function HoursOf(g: Game): (h: int)
    ensures g.totalHorasJugadas.None? ==> h == 0
    ensures g.totalHorasJugadas.Some? ==> h == g.totalHorasJugadas.value
  {
    if g.totalHorasJugadas.Some? && g.totalHorasJugadas.value != 0 then g.totalHorasJugadas.value else 0
  }

  /** `totalHoras`: the `reduce` from the left over the games' hours. */
  function TotalHours(js: seq<Game>): int {
    if js == [] then 0 else TotalHours(js[..|js| - 1]) + HoursOf(js[|js| - 1])
  }

  /** `currentXP` */
  function Xp(js: seq<Game>): int {
    |js| * XP_PER_GAME + CompletedCount(js) * XP_PER_COMPLETE + TotalHours(js) * XP_PER_HOUR
  }

  /** Adding a game to the end of the list adds one more to the completed count exactly when it is completed. */
  lemma {:induction false} CompletedCountAppend(js: seq<Game>, g: Game)
    ensures CompletedCount(js + [g]) == CompletedCount(js) + (if g.completado then 1 else 0)
  {
    if js == [] {
      assert CompletedGames([g]) == (if g.completado then [g] else []) + CompletedGames([]);
    } else {
      assert (js + [g])[1..] == js[1..] + [g];
      CompletedCountAppend(js[1..], g);
    }
  }

  /**
   * Each game is worth 50 XP, 150 more when completed, and 10 per recorded
   * hour (none when the hours are missing).
   */
  lemma XpAppend(js: seq<Game>, g: Game)
    ensures Xp(js + [g]) == Xp(js) + 50 + (if g.completado then 150 else 0) +
      10 * (if g.totalHorasJugadas.Some? then g.totalHorasJugadas.value else 0)
  {
    CompletedCountAppend(js, g);
    assert (js + [g])[..|js + [g]| - 1] == js;
  }

  /** The integer square root: the largest `r` with `r * r <= x`. */
  function ISqrt(x: nat): (r: nat)
    ensures r * r <= x < (r + 1) * (r + 1)
  {
    if x < 4 then (if x == 0 then 0 else 1)
    else
      var t := ISqrt(x / 4);
      var s := 2 * t;
      assert s * s <= x by {
        assert s * s == 4 * (t * t);
      }
      assert x < (s + 2) * (s + 2) by {
        assert x / 4 + 1 <= (t + 1) * (t + 1);
        assert (s + 2) * (s + 2) == 4 * ((t + 1) * (t + 1));
      }
      if (s + 1) * (s + 1) <= x then s + 1 else s
  }

  /**
   * `nivelActual = Math.floor(Math.sqrt(currentXP / 100)) || 1`: below 100 XP
   * (where the root is below 1, or NaN for a negative total) the level is 1;
   * from 100 XP on it is the largest `n` with `100 * n * n <= xp`.
   */
  function Level(xp: int): (l: int)
    ensures l >= 1
    ensures xp < 100 ==> l == 1
    ensures xp >= 100 ==> 100 * (l * l) <= xp < 100 * ((l + 1) * (l + 1))
  {
    if xp < 100 then 1
    else
      var l := ISqrt(xp / 100);
      assert l >= 1;
      l
  }

  /** No level above the computed one is reached: the level is the largest fitting `n`. */
  lemma LevelIsLargest(xp: int, n: int)
    requires xp >= 100 && 100 * (n * n) <= xp
    ensures n <= Level(xp)
  {
    var l := Level(xp);
    if n > l {
      SquareLe(l + 1, n);
      MulLe((l + 1) * (l + 1), n * n, 100);
    }
  }

  /** More experience never means a lower level. */
  lemma LevelMonotone(xp1: int, xp2: int)
    requires xp1 <= xp2
    ensures Level(xp1) <= Level(xp2)
  {
    if xp1 >= 100 {
      LevelIsLargest(xp2, Level(xp1));
    }
  }

  /** Adding a game with no negative hours never lowers the level. */
  lemma AddingGameKeepsLevel(js: seq<Game>, g: Game)
    requires HoursOf(g) >= 0
    ensures Level(Xp(js)) <= Level(Xp(js + [g]))
  {
    XpAppend(js, g);
    LevelMonotone(Xp(js), Xp(js + [g]));
  }

  /** `xpNextLevel = (nivelActual + 1)² · 100` */
  function XpNextLevel(level: int): int {
    (level + 1) * (level + 1) * 100
  }

  /** `xpPrevLevel = nivelActual² · 100` */
  function XpPrevLevel(level: int): int {
    level * level * 100
  }

  /** `xpNeeded`: the width of a level band, `100 · (2 · level + 1)`, positive for every level. */
  function XpNeeded(level: int): (n: int)
    requires level >= 1
    ensures n == 100 * (2 * level + 1) && n > 0
    ensures XpPrevLevel(level) < XpNextLevel(level)
  {
    XpNextLevel(level) - XpPrevLevel(level)
  }

  /** From 100 XP on the total lies in the current level's band. */
  lemma XpWithinBand(xp: int)
    requires xp >= 100
    ensures XpPrevLevel(Level(xp)) <= xp < XpNextLevel(Level(xp))
  {
    var l := Level(xp);
    assert XpPrevLevel(l) == 100 * (l * l);
    assert XpNextLevel(l) == 100 * ((l + 1) * (l + 1));
  }

  /** The progress over the level's threshold is negative below 100 XP and inside the band from then on. */
  lemma XpProgressSign(xp: int)
    ensures xp < 100 ==> xp - XpPrevLevel(Level(xp)) < 0
    ensures xp >= 100 ==> 0 <= xp - XpPrevLevel(Level(xp)) < XpNeeded(Level(xp))
  {
    if xp >= 100 {
      XpWithinBand(xp);
    } else {
      assert Level(xp) == 1;
    }
  }

  /**
   * `Math.min(100, Math.max(0, progress / needed * 100))` over a band of
   * positive width: within [0, 100], 0 for a negative progress, and the exact
   * unclamped share for a progress inside the band.
   */
  function ClampedShare(progress: int, needed: int): (p: real)
    requires needed > 0
    ensures 0.0 <= p <= 100.0
    ensures progress < 0 ==> p == 0.0
    ensures 0 <= progress < needed ==> IsPercentOf(p, progress, needed) && p < 100.0
  {
    RatioBounds(progress as real, needed as real);
    var raw := (progress as real / needed as real) * 100.0;
    var clampedLow := if 0.0 < raw then raw else 0.0;
    if 100.0 < clampedLow then 100.0 else clampedLow
  }

  /**
   * `xpPercentage`: always within [0, 100]; 0 below 100 XP, where the
   * progress over the forced level 1 is negative; from 100 XP on the exact
   * share of the band already covered, which is under 100 so the clamp
   * never applies.
   */
  function XpPercentage(xp: int): (p: real)
    ensures 0.0 <= p <= 100.0
    ensures xp < 100 ==> p == 0.0
    ensures xp >= 100 ==> IsPercentOf(p, xp - XpPrevLevel(Level(xp)), XpNeeded(Level(xp))) && p < 100.0
  {
    XpProgressSign(xp);
    ClampedShare(xp - XpPrevLevel(Level(xp)), XpNeeded(Level(xp)))
  }

  /**
   * `Math.round(c / t * 100)` on exact rationals, `Math.round` rounding halves
   * up: `(200c + t) div 2t` is within one half of `100c / t`, and in [0, 100].
   */
  lemma RoundHalfUpShare(c: int, t: int)
    requires 0 <= c <= t && t > 0
    ensures var q := (200 * c + t) / (2 * t);
      0 <= q <= 100 && 2 * q * t - t <= 200 * c < 2 * q * t + t
  {
    var n, d := 200 * c + t, 2 * t;
    var q, m := n / d, n % d;
    assert n == d * q + m && 0 <= m < d;
    assert 2 * q * t == d * q;
    assert q <= 100 by {
      assert d * q <= n < d * 101;
      CancelLt(q, 101, d);
    }
    assert q >= 0 by {
      if q < 0 {
        MulLe(q, -1, d);
      }
    }
  }

  /** The only rounding of `100c / t` is 100 when `c == t` and 0 when `c == 0`. */
  lemma RoundedShareExtremes(q: int, c: int, t: int)
    requires t > 0 && 2 * q * t - t <= 200 * c < 2 * q * t + t
    ensures c == t ==> q == 100
    ensures c == 0 ==> q == 0
  {
    assert 2 * q * t - t == (2 * q - 1) * t && 2 * q * t + t == (2 * q + 1) * t;
    if c == t {
      CancelLe(2 * q - 1, 200, t);
      CancelLt(200, 2 * q + 1, t);
    }
    if c == 0 {
      CancelLe(2 * q - 1, 0, t);
      CancelLt(0, 2 * q + 1, t);
    }
  }

  /**
   * `completionRate`: 0 for an empty library, otherwise
   * `Math.round(completados / totalJuegos * 100)` — the integer nearest to the
   * exact percentage, halves rounded up — in [0, 100].
   */
  function CompletionRate(js: seq<Game>): (r: int)
    ensures 0 <= r <= 100
    ensures |js| == 0 ==> r == 0
    ensures |js| > 0 ==>
      2 * r * |js| - |js| <= 200 * CompletedCount(js) < 2 * r * |js| + |js|
  {
    var t, c := |js|, CompletedCount(js);
    if t > 0 then
      RoundHalfUpShare(c, t);
      (200 * c + t) / (2 * t)
    else 0
  }

  /** An all-completed library shows 100 and a library with nothing completed shows 0. */
  lemma CompletionRateExtremes(js: seq<Game>)
    requires |js| > 0
    ensures CompletedCount(js) == |js| ==> CompletionRate(js) == 100
    ensures CompletedCount(js) == 0 ==> CompletionRate(js) == 0
  {
    RoundedShareExtremes(CompletionRate(js), CompletedCount(js), |js|);
  }

  /**
   * The donut's data `[completados, totalJuegos - completados]`: the
   * completed and the pending games, which together are all of them.
   */
  function ChartData(js: seq<Game>): (d: seq<int>)
    ensures |d| == 2 && d[0] == CompletedCount(js) && d[1] == |PendingGames(js)|
    ensures d[0] >= 0 && d[1] >= 0 && d[0] + d[1] == |js|
  {
    CompletedPlusPending(js);
    [CompletedCount(js), |js| - CompletedCount(js)]
  }

  /** `lastGame`: the first game of the list, none for an empty list. */
  function HeroGame(js: seq<Game>): (g: Option<Game>)
    ensures g.None? <==> |js| == 0
    ensures g.Some? ==> g.value == js[0]
  {
    if |js| > 0 then Some(js[0]) else None
  }

  /** `juegos.slice(0, 5)`: the log shows at most the first five games, in order. */
  function LogEntries(js: seq<Game>): (r: seq<Game>)
    ensures |r| == if |js| < 5 then |js| else 5
    ensures r == js[..|r|]
  {
    if |js| < 5 then js else js[..5]
  }

  /** The hero card shows the game at the top of the log, and there is a hero exactly when the log is not empty. */
  lemma HeroIsFirstLogEntry(js: seq<Game>)
    ensures HeroGame(js).Some? <==> |LogEntries(js)| > 0
    ensures HeroGame(js).Some? ==> HeroGame(js).value == LogEntries(js)[0]
  {
  }

  /** `lastGame.logrosTotales || 1`: the achievements bar never divides by zero. */
  function AchievementDenominator(g: Game): (d: int)
    ensures d != 0
    ensures g.logrosTotales.Some? && g.logrosTotales.value != 0 ==> d == g.logrosTotales.value
    ensures (g.logrosTotales.None? || g.logrosTotales.value == 0) ==> d == 1
  {
    if g.logrosTotales.Some? && g.logrosTotales.value != 0 then g.logrosTotales.value else 1
  }

  /**
   * The achievements bar width `logrosObtenidos / (logrosTotales || 1) * 100`,
   * `None` standing for the NaN given by a missing `logrosObtenidos`.
   */
  function AchievementPercent(g: Game): (p: Option<real>)
    ensures p.Some? <==> g.logrosObtenidos.Some?
    ensures p.Some? ==> IsPercentOf(p.value, g.logrosObtenidos.value, AchievementDenominator(g))
  {
    if g.logrosObtenidos.Some? then
      Some((g.logrosObtenidos.value as real / AchievementDenominator(g) as real) * 100.0)
    else None
  }

  /** The user fields the dashboard reads. */
  datatype User = User(nickname: Option<string>, phrase: Option<string>, profilePicUrl: Option<string>)

  /**
   * `avatarSrc = localPreview || user.profilePicUrl || DEFAULT_AVATAR`: the
   * local preview first, then the stored picture, then the default; never empty.
   */
  function AvatarSrc(localPreview: Option<string>, user: User): (s: string)
    ensures s != ""
    ensures localPreview.Some? && localPreview.value != "" ==> s == localPreview.value
    ensures ((localPreview.None? || localPreview.value == "") &&
             user.profilePicUrl.Some? && user.profilePicUrl.value != "") ==> s == user.profilePicUrl.value
    ensures ((localPreview.None? || localPreview.value == "") &&
             (user.profilePicUrl.None? || user.profilePicUrl.value == "")) ==> s == DEFAULT_AVATAR
  {
    OrElse(localPreview, OrElse(user.profilePicUrl, DEFAULT_AVATAR))
  }

  /** The effect on a new `currentUser`: a stored picture discards the local preview. */
  function SyncPreview(user: User, localPreview: Option<string>): (p: Option<string>)
    ensures user.profilePicUrl.Some? && user.profilePicUrl.value != "" ==> p == None
    ensures (user.profilePicUrl.None? || user.profilePicUrl.value == "") ==> p == localPreview
  {
    if user.profilePicUrl.Some? && user.profilePicUrl.value != "" then None else localPreview
  }

  /** Once the server's picture arrives, the avatar shows it, whatever was previewed before. */
  lemma StoredPictureWinsAfterSync(user: User, localPreview: Option<string>)
    requires user.profilePicUrl.Some? && user.profilePicUrl.value != ""
    ensures AvatarSrc(SyncPreview(user, localPreview), user) == user.profilePicUrl.value
  {
  }

  /** The name shown on the ID card: the nickname, else "Agente". */
  function DisplayNickname(user: User): (s: string)
    ensures s != ""
    ensures user.nickname.Some? && user.nickname.value != "" ==> s == user.nickname.value
    ensures (user.nickname.None? || user.nickname.value == "") ==> s == "Agente"
  {
    OrElse(user.nickname, "Agente")
  }

  /** The phrase under it: the user's phrase, else "Miembro de Plus Ultra". */
  function DisplayPhrase(user: User): (s: string)
    ensures s != ""
    ensures user.phrase.Some? && user.phrase.value != "" ==> s == user.phrase.value
    ensures (user.phrase.None? || user.phrase.value == "") ==> s == "Miembro de Plus Ultra"
  {
    OrElse(user.phrase, "Miembro de Plus Ultra")
  }

  /** `email.split('@')[0]`: the text before the first '@', or all of it when there is none. */
  function EmailPrefix(email: string): (p: string)
    ensures |p| <= |email| && p == email[..|p|]
    ensures '@' !in p
    ensures |p| == |email| || email[|p|] == '@'
  {
    if email == [] || email[0] == '@' then []
    else
      var rest := EmailPrefix(email[1..]);
      assert email[1..][..|rest|] == email[1..|rest| + 1];
      [email[0]] + rest
  }

  /** The prefix of `name@domain` is `name`, whenever `name` has no '@'. */
  lemma {:induction false} EmailPrefixOfAddress(name: string, domain: string)
    requires '@' !in name
    ensures EmailPrefix(name + "@" + domain) == name
  {
    if name != [] {
      assert (name + "@" + domain)[1..] == name[1..] + "@" + domain;
      EmailPrefixOfAddress(name[1..], domain);
    } else {
      assert (name + "@" + domain)[0] == '@';
    }
  }

  /** A friend as the friend list reads it. */
  datatype Friend = Friend(nickname: Option<string>, email: string, profilePicUrl: Option<string>)

  /** `friend.nickname || friend.email.split('@')[0]` */
  function FriendName(f: Friend): (s: string)
    ensures f.nickname.Some? && f.nickname.value != "" ==> s == f.nickname.value
    ensures (f.nickname.None? || f.nickname.value == "") ==> s == EmailPrefix(f.email)
  {
    OrElse(f.nickname, EmailPrefix(f.email))
  }

  /** `friend.profilePicUrl || DEFAULT_AVATAR` */
  function FriendAvatar(f: Friend): (s: string)
    ensures s != ""
    ensures f.profilePicUrl.Some? && f.profilePicUrl.value != "" ==> s == f.profilePicUrl.value
    ensures (f.profilePicUrl.None? || f.profilePicUrl.value == "") ==> s == DEFAULT_AVATAR
  {
    OrElse(f.profilePicUrl, DEFAULT_AVATAR)
  }
}
