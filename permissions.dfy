/**
 * Discord permission checks (`src/discord/permissions/hasPermission.ts`):
 * a permission is a bit mask; a member has it when the channel's
 * overwrites allow it, or, when they say nothing, when the guild's base
 * permissions do.
 *
 * Masks arrive as decimal strings and go through `BigInt`; here they are
 * already numbers. An absent or empty `permissions` string is `None`.
 */
module Permissions {
  import opened Wrappers

  /** Bit `i` of `x`. */
  function Bit(x: nat, i: nat): bool
  {
    if i == 0 then x % 2 == 1 else Bit(x / 2, i - 1)
  }

  /** `a & b` on non-negative big integers. */
  function And(a: nat, b: nat): (r: nat)
    ensures r <= a
    decreases a
  {
    if a == 0 || b == 0 then 0
    else 2 * And(a / 2, b / 2) + (if a % 2 == 1 && b % 2 == 1 then 1 else 0)
  }

  lemma {:induction false} AndBits(a: nat, b: nat, i: nat)
    ensures Bit(And(a, b), i) == (Bit(a, i) && Bit(b, i))
    decreases a
  {
    if a == 0 || b == 0 {
      ZeroBits(i);
    } else {
      var c := if a % 2 == 1 && b % 2 == 1 then 1 else 0;
      assert And(a, b) == 2 * And(a / 2, b / 2) + c;
      HalveOddEven(And(a / 2, b / 2), c);
      if i > 0 {
        AndBits(a / 2, b / 2, i - 1);
      }
    }
  }

  /** Halving `2x + c` for a low bit `c` gives back `x` and `c`. */
  lemma HalveOddEven(x: nat, c: nat)
    requires c < 2
    ensures (2 * x + c) / 2 == x && (2 * x + c) % 2 == c
  {
  }

  lemma {:induction false} ZeroBits(i: nat)
    ensures !Bit(0, i)
  {
    if i > 0 {
      ZeroBits(i - 1);
    }
  }

  /** Two numbers with the same bits are equal. */
  lemma {:induction false} SameBits(x: nat, y: nat)
    requires forall i: nat :: Bit(x, i) == Bit(y, i)
    ensures x == y
    decreases x + y
  {
    assert Bit(x, 0) == Bit(y, 0);
    if x != 0 || y != 0 {
      forall i: nat ensures Bit(x / 2, i) == Bit(y / 2, i) {
        assert Bit(x, i + 1) == Bit(y, i + 1);
      }
      SameBits(x / 2, y / 2);
    }
  }

  /** Every bit set in the permission is set in the mask. */
  ghost predicate Covers(incoming: nat, permission: nat)
  {
    forall i: nat :: Bit(permission, i) ==> Bit(incoming, i)
  }

  /** `checkPermission`: every bit of the permission is set in the incoming mask. */
  function CheckPermission(incoming: nat, permission: nat): (r: bool)
    ensures r <==> Covers(incoming, permission)
  {
    AndCovers(incoming, permission);
    And(incoming, permission) == permission
  }

  lemma AndCovers(incoming: nat, permission: nat)
    ensures And(incoming, permission) == permission <==> Covers(incoming, permission)
  {
    if Covers(incoming, permission) {
      CoveredAnd(incoming, permission);
    }
    if And(incoming, permission) == permission {
      forall i: nat | Bit(permission, i) ensures Bit(incoming, i) {
        AndBits(incoming, permission, i);
      }
    }
  }

  lemma CoveredAnd(incoming: nat, permission: nat)
    requires Covers(incoming, permission)
    ensures And(incoming, permission) == permission
  {
    forall i: nat ensures Bit(And(incoming, permission), i) == Bit(permission, i) {
      AndBits(incoming, permission, i);
    }
    SameBits(And(incoming, permission), permission);
  }

  /** The value of a channel overwrite or guild permission (`enum Value`). */
  datatype PermValue = Unset | Allow | Deny

  /** `OverwriteType`: 0 targets a role, 1 a member. */
  datatype OverwriteType = Role | Member

  datatype Overwrite = Overwrite(id: string, kind: OverwriteType, allow: nat, deny: nat)

  datatype GuildMember = GuildMember(userId: string, roles: seq<string>)

  datatype Channel = Channel(guildId: string, overwrites: Option<seq<Overwrite>>)

  datatype Guild = Guild(permissions: Option<nat>)

  /**
   * The overwrite concerns the member: a role overwrite for @everyone (its
   * id is the guild's) or for one of the member's roles, or a member
   * overwrite for the member's user.
   */
  predicate Applies(o: Overwrite, member: GuildMember, guildId: string)
  {
    match o.kind
    case Role => o.id == guildId || o.id in member.roles
    case Member => o.id == member.userId
  }

  /** `hasGuildPermission`: no base permissions say nothing. */
  function GuildValue(guild: Guild, permission: nat): (v: PermValue)
    ensures v == Unset <==> guild.permissions.None?
    ensures v == Allow <==> guild.permissions.Some? && CheckPermission(guild.permissions.value, permission)
  {
    match guild.permissions
    case None => Unset
    case Some(mask) => if CheckPermission(mask, permission) then Allow else Deny
  }

  /** The channel's overwrites; a missing list has none. */
  function Overwrites(channel: Channel): seq<Overwrite>
  {
    if channel.overwrites.Some? then channel.overwrites.value else []
  }

  /**
   * What the overwrites decide, stated without the scan: any applying
   * overwrite that allows the permission wins; otherwise any applying one
   * that denies it denies; otherwise they say nothing.
   */
  function ChannelValue(member: GuildMember, channel: Channel, permission: nat): PermValue
  {
    var ows := Overwrites(channel);
    if exists i :: 0 <= i < |ows| && Applies(ows[i], member, channel.guildId) && CheckPermission(ows[i].allow, permission) then Allow
    else if exists i :: 0 <= i < |ows| && Applies(ows[i], member, channel.guildId) && CheckPermission(ows[i].deny, permission) then Deny
    else Unset
  }

  /**
   * `hasChannelPermission`: scan the overwrites in order, return Allow at
   * the first applying one that allows, remember any applying deny.
   */
  method ChannelPermission(member: GuildMember, channel: Channel, permission: nat) returns (v: PermValue)
    ensures v == ChannelValue(member, channel, permission)
  {
    var denied := false;
    if channel.overwrites.Some? {
      var ows := Overwrites(channel);
      for i := 0 to |ows|
        invariant forall j :: 0 <= j < i && Applies(ows[j], member, channel.guildId) ==> !CheckPermission(ows[j].allow, permission)
        invariant denied <==> exists j :: 0 <= j < i && Applies(ows[j], member, channel.guildId) && CheckPermission(ows[j].deny, permission)
      {
        var o := ows[i];
        if Applies(o, member, channel.guildId) {
          if CheckPermission(o.allow, permission) {
            assert Applies(ows[i], member, channel.guildId) && CheckPermission(ows[i].allow, permission);
            return Allow;
          }
          if CheckPermission(o.deny, permission) {
            denied := true;
          }
        }
      }
    }
    v := if denied then Deny else Unset;
  }

  /** `hasPermission`: the channel decides unless it says nothing, then the guild does. */
  function HasPermission(member: GuildMember, guild: Guild, channel: Channel, permission: nat): (r: bool)
    ensures ChannelValue(member, channel, permission) == Unset ==> (r <==> GuildValue(guild, permission) == Allow)
    ensures ChannelValue(member, channel, permission) != Unset ==> (r <==> ChannelValue(member, channel, permission) == Allow)
  {
    var c := ChannelValue(member, channel, permission);
    if c == Unset then GuildValue(guild, permission) == Allow else c == Allow
  }

  /** Without overwrites the guild's base permissions decide, and no base permissions means no. */
  lemma NoOverwritesDefersToGuild(member: GuildMember, guild: Guild, channel: Channel, permission: nat)
    requires channel.overwrites.None? || channel.overwrites == Some([])
    ensures HasPermission(member, guild, channel, permission)
      <==> guild.permissions.Some? && CheckPermission(guild.permissions.value, permission)
  {
  }

  /** An applying overwrite that allows the permission grants it, whatever the guild and the other overwrites say. */
  lemma AllowOverwriteWins(member: GuildMember, guild: Guild, channel: Channel, permission: nat, k: nat)
    requires channel.overwrites.Some? && k < |channel.overwrites.value|
    requires Applies(channel.overwrites.value[k], member, channel.guildId)
    requires CheckPermission(channel.overwrites.value[k].allow, permission)
    ensures HasPermission(member, guild, channel, permission)
  {
    var ows := Overwrites(channel);
    assert Applies(ows[k], member, channel.guildId) && CheckPermission(ows[k].allow, permission);
  }

  /** Permission 0 asks for nothing, so every mask has it. */
  lemma EmptyPermissionAlwaysHeld(incoming: nat)
    ensures CheckPermission(incoming, 0)
  {
    ZeroBits(0);
    forall i: nat ensures !Bit(0, i) {
      ZeroBits(i);
    }
  }

  /** A mask with a permission's bit cleared does not hold it: for a single bit, holding it is testing the bit. */
  lemma SingleBitPermission(incoming: nat, k: nat)
    ensures CheckPermission(incoming, Pow2(k)) <==> Bit(incoming, k)
  {
    forall i: nat ensures Bit(Pow2(k), i) <==> i == k {
      Pow2Bits(k, i);
    }
  }

  function Pow2(k: nat): (p: nat)
    ensures p >= 1
  {
    if k == 0 then 1 else 2 * Pow2(k - 1)
  }

  lemma {:induction false} Pow2Bits(k: nat, i: nat)
    ensures Bit(Pow2(k), i) <==> i == k
  {
    if k == 0 {
      if i > 0 {
        ZeroBits(i - 1);
      }
    } else if i == 0 {
    } else {
      Pow2Bits(k - 1, i - 1);
    }
  }
}
