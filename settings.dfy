/** The constant tables of the game: screen and world size, weapons,
    difficulty profiles, zombie types and obstacle types. */
module Settings {

  const SCREEN_WIDTH: int := 1024
  const SCREEN_HEIGHT: int := 768
  const WORLD_WIDTH: int := 3000
  const WORLD_HEIGHT: int := 3000

  const PLAYER_SIZE: nat := 40
  const PLAYER_SPEED: int := 4

  /** Side of the (square) bullet sprite: the default size of the bullet
      image drawn at start-up, not an entry of the settings tables. */
  const BULLET_SIZE: nat := 6

  const OBSTACLE_COUNT: nat := 40
  const OBSTACLE_MIN_DIST: int := 120
  /** Fraction of a zombie's damage blocked when the player is behind cover. */
  const COVER_DAMAGE_REDUCTION: real := 0.8

  datatype WeaponId = Pistol | Shotgun | Rifle

  /** Damage and bullet speed per bullet, fire-rate and reload in ms, spread
      in degrees. */
  datatype WeaponDef = WeaponDef(
    damage: nat, fireRate: nat, bulletSpeed: nat, spread: nat,
    bulletsPerShot: nat, magSize: nat, reloadTime: nat)

  function Weapon(w: WeaponId): WeaponDef
  {
    match w
    case Pistol => WeaponDef(25, 250, 12, 3, 1, 15, 1000)
    case Shotgun => WeaponDef(15, 600, 10, 20, 5, 8, 1800)
    case Rifle => WeaponDef(50, 150, 16, 1, 1, 30, 2000)
  }

  datatype Difficulty = Easy | Medium | Hard | Extreme

  datatype DifficultyProfile = DifficultyProfile(
    zombieSpeed: real, spawnInterval: nat, zombieHp: nat, maxZombies: nat,
    playerHp: nat, damagePerHit: nat, zombiesPerWaveBase: nat, waveGrowth: nat)

  function Profile(d: Difficulty): DifficultyProfile
  {
    match d
    case Easy => DifficultyProfile(1.0, 3000, 1, 10, 200, 10, 5, 3)
    case Medium => DifficultyProfile(2.0, 2000, 2, 20, 150, 20, 8, 4)
    case Hard => DifficultyProfile(3.5, 1000, 3, 35, 100, 30, 12, 6)
    case Extreme => DifficultyProfile(5.0, 500, 5, 50, 75, 40, 18, 10)
  }

  datatype ZombieKind = Normal | Fast | Tank

  datatype ZombieType = ZombieType(
    size: nat, hpMult: real, speedMult: real, damageMult: real, score: nat, weight: nat)

  function ZombieTypeInfo(k: ZombieKind): ZombieType
  {
    match k
    case Normal => ZombieType(36, 1.0, 1.0, 1.0, 100, 60)
    case Fast => ZombieType(30, 0.6, 1.8, 0.7, 150, 25)
    case Tank => ZombieType(48, 3.0, 0.6, 2.0, 300, 15)
  }

  /** The zombie types in the table's order, which is the order
      `random.choices` sees them in. */
  const ZOMBIE_KINDS: seq<ZombieKind> := [Normal, Fast, Tank]

  datatype ObstacleKind = Barricade | Car | Crate | ConcreteWall | Sandbag

  datatype ObstacleType = ObstacleType(width: nat, height: nat, weight: nat)

  function ObstacleTypeInfo(k: ObstacleKind): ObstacleType
  {
    match k
    case Barricade => ObstacleType(80, 30, 30)
    case Car => ObstacleType(100, 55, 15)
    case Crate => ObstacleType(40, 40, 25)
    case ConcreteWall => ObstacleType(60, 60, 15)
    case Sandbag => ObstacleType(70, 35, 15)
  }

  const OBSTACLE_KINDS: seq<ObstacleKind> := [Barricade, Car, Crate, ConcreteWall, Sandbag]
}
