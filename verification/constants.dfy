/** Fixed sizes of the scene and the colour themes. */
module Constants {
  import opened Types

  const ParticleCount: nat := 8000
  const TreeHeight: real := 12.0
  const TreeRadius: real := 5.0
  const ExplosionRadius: real := 25.0

  const Ice := ThemeConfig("ICE", "Glacial Luxury", "#E0F2FF", "#0066FF", "#4488FF", "#000814", "#aaccff")
  const Classic := ThemeConfig("CLASSIC", "Royal Tradition", "#FFD700", "#0F5132", "#C41E3A", "#051005", "#ffddaa")
  const Neon := ThemeConfig("NEON", "Cyber Night", "#00FFFF", "#FF00FF", "#9D00FF", "#0a0014", "#ffaaee")
}
