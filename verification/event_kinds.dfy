/**
 * The closed catalog of quest event kinds (`QuestEventType`, a `uint16`).
 * The Go declaration is one `iota` block: every kind's value is its position
 * in the block, starting from `EventSay = 0`, and the trailing sentinel
 * `LargestEventId` equals the number of real kinds.
 */
module EventKinds {

  /** `QuestEventType`: an unsigned 16-bit event kind. */
  newtype EventKind = x: int | 0 <= x < 0x1_0000

  const EventSay: EventKind := 0
  const EventTrade: EventKind := 1
  const EventDeath: EventKind := 2
  const EventSpawn: EventKind := 3
  const EventAttack: EventKind := 4
  const EventCombat: EventKind := 5
  const EventAggro: EventKind := 6
  const EventSlay: EventKind := 7
  const EventNpcSlay: EventKind := 8
  const EventWaypointArrive: EventKind := 9
  const EventWaypointDepart: EventKind := 10
  const EventTimer: EventKind := 11
  const EventSignal: EventKind := 12
  const EventHp: EventKind := 13
  const EventEnter: EventKind := 14
  const EventExit: EventKind := 15
  const EventEnterZone: EventKind := 16
  const EventClickDoor: EventKind := 17
  const EventLoot: EventKind := 18
  const EventZone: EventKind := 19
  const EventLevelUp: EventKind := 20
  const EventKilledMerit: EventKind := 21
  const EventCastOn: EventKind := 22
  const EventTaskAccepted: EventKind := 23
  const EventTaskStageComplete: EventKind := 24
  const EventTaskUpdate: EventKind := 25
  const EventTaskComplete: EventKind := 26
  const EventTaskFail: EventKind := 27
  const EventAggroSay: EventKind := 28
  const EventPlayerPickup: EventKind := 29
  const EventPopupResponse: EventKind := 30
  const EventEnvironmentalDamage: EventKind := 31
  const EventProximitySay: EventKind := 32
  const EventCast: EventKind := 33
  const EventCastBegin: EventKind := 34
  const EventScaleCalc: EventKind := 35
  const EventItemEnterZone: EventKind := 36
  const EventTargetChange: EventKind := 37
  const EventHateList: EventKind := 38
  const EventSpellEffectClient: EventKind := 39
  const EventSpellEffectNpc: EventKind := 40
  const EventSpellEffectBuffTicClient: EventKind := 41
  const EventSpellEffectBuffTicNpc: EventKind := 42
  const EventSpellFade: EventKind := 43
  const EventSpellEffectTranslocateComplete: EventKind := 44
  const EventCombineSuccess: EventKind := 45
  const EventCombineFailure: EventKind := 46
  const EventItemClick: EventKind := 47
  const EventItemClickCast: EventKind := 48
  const EventGroupChange: EventKind := 49
  const EventForageSuccess: EventKind := 50
  const EventForageFailure: EventKind := 51
  const EventFishStart: EventKind := 52
  const EventFishSuccess: EventKind := 53
  const EventFishFailure: EventKind := 54
  const EventClickObject: EventKind := 55
  const EventDiscoverItem: EventKind := 56
  const EventDisconnect: EventKind := 57
  const EventConnect: EventKind := 58
  const EventItemTick: EventKind := 59
  const EventDuelWin: EventKind := 60
  const EventDuelLose: EventKind := 61
  const EventEncounterLoad: EventKind := 62
  const EventEncounterUnload: EventKind := 63
  const EventCommand: EventKind := 64
  const EventDropItem: EventKind := 65
  const EventDestroyItem: EventKind := 66
  const EventFeignDeath: EventKind := 67
  const EventWeaponProc: EventKind := 68
  const EventEquipItem: EventKind := 69
  const EventUnequipItem: EventKind := 70
  const EventAugmentItem: EventKind := 71
  const EventUnaugmentItem: EventKind := 72
  const EventAugmentInsert: EventKind := 73
  const EventAugmentRemove: EventKind := 74
  const EventEnterArea: EventKind := 75
  const EventLeaveArea: EventKind := 76
  const EventRespawn: EventKind := 77
  const EventDeathComplete: EventKind := 78
  const EventUnhandledOpcode: EventKind := 79
  const EventTick: EventKind := 80
  const EventSpawnZone: EventKind := 81
  const EventDeathZone: EventKind := 82
  const EventUseSkill: EventKind := 83
  const EventCombineValidate: EventKind := 84
  const EventBotCommand: EventKind := 85
  const EventWarp: EventKind := 86
  const EventTestBuff: EventKind := 87
  const EventCombine: EventKind := 88
  const EventConsider: EventKind := 89
  const EventConsiderCorpse: EventKind := 90
  const EventLootZone: EventKind := 91
  const EventEquipItemClient: EventKind := 92
  const EventUnequipItemClient: EventKind := 93
  const EventSkillUp: EventKind := 94
  const EventLanguageSkillUp: EventKind := 95
  const EventAltCurrencyMerchantBuy: EventKind := 96
  const EventAltCurrencyMerchantSell: EventKind := 97
  const EventMerchantBuy: EventKind := 98
  const EventMerchantSell: EventKind := 99
  const EventInspect: EventKind := 100
  const EventTaskBeforeUpdate: EventKind := 101
  const EventAaBuy: EventKind := 102
  const EventAaGain: EventKind := 103
  const EventAaExpGain: EventKind := 104
  const EventExpGain: EventKind := 105
  const EventPayload: EventKind := 106
  const EventLevelDown: EventKind := 107
  const EventGmCommand: EventKind := 108
  const EventDespawn: EventKind := 109
  const EventDespawnZone: EventKind := 110
  const EventBotCreate: EventKind := 111
  const EventAugmentInsertClient: EventKind := 112
  const EventAugmentRemoveClient: EventKind := 113
  const EventEquipItemBot: EventKind := 114
  const EventUnequipItemBot: EventKind := 115
  const EventDamageGiven: EventKind := 116
  const EventDamageTaken: EventKind := 117
  const EventItemClickClient: EventKind := 118
  const EventItemClickCastClient: EventKind := 119
  const EventDestroyItemClient: EventKind := 120
  const EventDropItemClient: EventKind := 121
  const EventMemorizeSpell: EventKind := 122
  const EventUnmemorizeSpell: EventKind := 123
  const EventScribeSpell: EventKind := 124
  const EventUnscribeSpell: EventKind := 125
  const EventLootAdded: EventKind := 126
  const EventLdonPointsGain: EventKind := 127
  const EventLdonPointsLoss: EventKind := 128
  const EventAltCurrencyGain: EventKind := 129
  const EventAltCurrencyLoss: EventKind := 130
  const EventCrystalGain: EventKind := 131
  const EventCrystalLoss: EventKind := 132
  const EventTimerPause: EventKind := 133
  const EventTimerResume: EventKind := 134
  const EventTimerStart: EventKind := 135
  const EventTimerStop: EventKind := 136
  const EventEntityVariableDelete: EventKind := 137
  const EventEntityVariableSet: EventKind := 138
  const EventEntityVariableUpdate: EventKind := 139
  const EventAaLoss: EventKind := 140
  const EventSpellBlocked: EventKind := 141
  const EventReadItem: EventKind := 142

  /** The sentinel after the last real kind: the size of a kind-indexed table. */
  const LargestEventId: EventKind := 143

  /** `k` is one of the declared kinds: the sentinel and anything above it are not. */
  predicate IsCatalogued(k: EventKind)
  {
    k < LargestEventId
  }

  /**
   * The declared kinds are contiguous from `EventSay = 0` up to `EventReadItem`,
   * and the sentinel comes right after the last of them, so it is strictly
   * greater than every real kind and counts them.
   */
  lemma CatalogBounds()
    ensures EventSay == 0 && EventReadItem as int + 1 == LargestEventId as int
    ensures forall k: EventKind :: IsCatalogued(k) <==> EventSay <= k <= EventReadItem
    ensures !IsCatalogued(LargestEventId)
  {
  }
}
